/** The language of tunnel definitions, declaratively, and that the parser accepts
    exactly this language, each text as the tunnel it writes. */
module Notation {
  import opened Wrappers
  import opened Text
  import opened SocketSpecs
  import opened Tunnels

  ghost predicate WritesSpec(text: string, spec: SocketSpec) {
    exists host, bare, port: nat :: Writes(text, host, bare, port) && spec == Normal(host, port)
  }

  /** One or more specifications, separated by commas. */
  ghost predicate WritesList(text: string, specs: seq<SocketSpec>)
    decreases |specs|
  {
    && specs != []
    && if |specs| == 1 then WritesSpec(text, specs[0])
       else exists first, more ::
              text == first + ([','] + more) && WritesSpec(first, specs[0]) && WritesList(more, specs[1..])
  }

  /** Nothing, or valid items in brackets. */
  ghost predicate WritesOptions(text: string, o: Option<TunnelOptions>, defaults: TunnelOptions, isFloat: string -> bool) {
    match o
    case None => text == ""
    case Some(options) =>
      exists items :: AreItems(items) && text == ['['] + (JoinItems(items) + [']']) && SetOptions(defaults, items, isFloat) == Some(options)
  }

  ghost predicate WritesTunnel(s: string, t: Tunnel, defaults: TunnelOptions, isFloat: string -> bool) {
    exists local, remotes, options ::
      && s == local + (['='] + (remotes + options)) && WritesSpec(local, t.local)
      && WritesList(remotes, t.remote) && WritesOptions(options, t.options, defaults, isFloat)
  }

  // ------------------------------------------------------------ completeness

  lemma SpecExact(text: string, spec: SocketSpec, follow: string)
    requires WritesSpec(text, spec) && SpecEnds(follow)
    ensures ParseSocketSpec(text + follow) == Parsed(follow, spec)
  {
    var host, bare, port: nat :| Writes(text, host, bare, port) && spec == Normal(host, port);
    ParseExact(text, host, bare, port, follow);
  }

  lemma {:induction false} ListExact(text: string, specs: seq<SocketSpec>, follow: string)
    requires WritesList(text, specs) && SpecEnds(follow) && SpecsEnd(follow)
    ensures ParseSpecs(text + follow) == Parsed(follow, specs)
    decreases |specs|
  {
    hide ParseSocketSpec, ParseSpecs, WritesSpec;
    if |specs| == 1 {
      SpecExact(text, specs[0], follow);
      SpecsUnfold(text + follow, follow, specs[0]);
      assert specs == [specs[0]];
    } else {
      var first, more :| text == first + ([','] + more) && WritesSpec(first, specs[0]) && WritesList(more, specs[1..]);
      ListExact(more, specs[1..], follow);
      Assoc(first, [','] + more, follow);
      Assoc([','], more, follow);
      SpecExact(first, specs[0], [','] + (more + follow));
      SpecsUnfold(first + ([','] + (more + follow)), [','] + (more + follow), specs[0]);
      CharExact(',', more + follow);
      assert specs == [specs[0]] + specs[1..];
    }
  }

  lemma OptionsExact(text: string, o: Option<TunnelOptions>, defaults: TunnelOptions, isFloat: string -> bool)
    requires WritesOptions(text, o, defaults, isFloat)
    ensures ParseBracketed(text, defaults, isFloat) == Parsed("", o) && SpecEnds(text) && SpecsEnd(text)
  {
    if o.Some? {
      var items :| AreItems(items) && text == ['['] + (JoinItems(items) + [']']) && SetOptions(defaults, items, isFloat) == o;
      BracketedParses(items, defaults, isFloat);
      hide ParseBracketed, JoinItems, SetOptions;
    }
  }

  lemma TunnelExact(s: string, t: Tunnel, defaults: TunnelOptions, isFloat: string -> bool)
    requires WritesTunnel(s, t, defaults, isFloat)
    ensures ParseTunnel(s, defaults, isFloat) == Parsed("", t)
  {
    hide WritesSpec, WritesList, WritesOptions, ParseSocketSpec, ParseSpecs, ParseBracketed;
    var local, remotes, options :|
      && s == local + (['='] + (remotes + options)) && WritesSpec(local, t.local)
      && WritesList(remotes, t.remote) && WritesOptions(options, t.options, defaults, isFloat);
    OptionsExact(options, t.options, defaults, isFloat);
    SpecExact(local, t.local, ['='] + (remotes + options));
    CharExact('=', remotes + options);
    ListExact(remotes, t.remote, options);
  }

  // --------------------------------------------------------------- soundness

  lemma SpecSound(s: string) returns (text: string)
    requires ParseSocketSpec(s).Parsed?
    ensures s == text + ParseSocketSpec(s).rest && WritesSpec(text, ParseSocketSpec(s).value)
  {
    var host, bare, port;
    text, host, bare, port := ParseSound(s);
  }

  lemma ListCons(first: string, spec: SocketSpec, more: string, specs: seq<SocketSpec>)
    requires WritesSpec(first, spec) && WritesList(more, specs)
    ensures WritesList(first + ([','] + more), [spec] + specs)
  {
    hide WritesSpec;
    var all := [spec] + specs;
    assert |all| > 1 && all[0] == spec && all[1..] == specs;
    assert WritesSpec(first, all[0]) && WritesList(more, all[1..]);
  }

  lemma {:induction false} ListSound(s: string) returns (text: string)
    requires ParseSpecs(s).Parsed?
    ensures s == text + ParseSpecs(s).rest && WritesList(text, ParseSpecs(s).value)
    decreases |s|
  {
    hide ParseSocketSpec, WritesSpec;
    ParseShrinks(s);
    var first := SpecSound(s);
    var spec, rest := ParseSocketSpec(s).value, ParseSocketSpec(s).rest;
    SpecsUnfold(s, rest, spec);
    var after := Char(rest, ',');
    hide ParseSpecs;
    if after.Parsed? && ParseSpecs(after.rest).Parsed? {
      var more := ListSound(after.rest);
      CharSound(rest, ',');
      ListCons(first, spec, more, ParseSpecs(after.rest).value);
      text := first + ([','] + more);
      Assoc([','], more, ParseSpecs(after.rest).rest);
      Assoc(first, [','] + more, ParseSpecs(after.rest).rest);
    } else {
      text := first;
    }
  }

  lemma OptionsSound(s: string, defaults: TunnelOptions, isFloat: string -> bool)
    requires ParseBracketed(s, defaults, isFloat).Parsed? && ParseBracketed(s, defaults, isFloat).rest == ""
    ensures WritesOptions(s, ParseBracketed(s, defaults, isFloat).value, defaults, isFloat)
  {
    if ParseBracketed(s, defaults, isFloat).value.Some? {
      hide ParseItems, JoinItems, SetOptions, AreItems;
      var inside := Char(s, '[').rest;
      CharSound(s, '[');
      ItemsSound(inside);
      CharSound(ParseItems(inside).rest, ']');
      assert [']'] + "" == [']'];
    }
  }

  lemma TunnelParts(s: string, defaults: TunnelOptions, isFloat: string -> bool)
    requires ParseTunnel(s, defaults, isFloat).Parsed?
    ensures WritesTunnel(s, ParseTunnel(s, defaults, isFloat).value, defaults, isFloat)
    ensures ParseTunnel(s, defaults, isFloat).rest == ""
  {
    hide ParseSocketSpec, ParseSpecs, ParseBracketed, WritesSpec, WritesList, WritesOptions;
    var local := SpecSound(s);
    var afterLocal := ParseSocketSpec(s).rest;
    CharSound(afterLocal, '=');
    var remotes := ListSound(Char(afterLocal, '=').rest);
    OptionsSound(ParseSpecs(Char(afterLocal, '=').rest).rest, defaults, isFloat);
  }

  /** A string is accepted as a tunnel if and only if it writes this tunnel. */
  lemma TunnelIff(s: string, t: Tunnel, defaults: TunnelOptions, isFloat: string -> bool)
    ensures ParseTunnel(s, defaults, isFloat) == Parsed("", t) <==> WritesTunnel(s, t, defaults, isFloat)
  {
    hide ParseTunnel, WritesTunnel;
    if WritesTunnel(s, t, defaults, isFloat) {
      TunnelExact(s, t, defaults, isFloat);
    }
    if ParseTunnel(s, defaults, isFloat) == Parsed("", t) {
      TunnelParts(s, defaults, isFloat);
    }
  }
}
