/** Tunnel definitions: a local socket, one or more remotes and options in
    brackets; reading them and printing them. */
module Tunnels {
  import opened Wrappers
  import opened Text
  import opened SocketSpecs

  datatype LBStrategy = Random | RoundRobin | MinimumOpenConnections

  /** A floating-point option, kept as the text it was written as. */
  datatype Float = Float(text: string)

  datatype RemoteOptions = RemoteOptions(errorsTillDead: nat, connectTimeout: Float, deadRetry: Float, tls: bool)

  datatype TunnelOptions = TunnelOptions(strategy: LBStrategy, remoteConnectRetries: nat, options: RemoteOptions)

  datatype Tunnel = Tunnel(local: SocketSpec, remote: seq<SocketSpec>, options: Option<TunnelOptions>)

  const MAX_U16: nat := 0xFFFF
  const MAX_U64: nat := 0xFFFF_FFFF_FFFF_FFFF

  // ------------------------------------------------------------ the strategy

  function LowerChar(c: char): (l: char) {
    if 'A' <= c <= 'Z' then c - 'A' + 'a' else c
  }

  function Lower(s: string): (l: string)
    ensures |l| == |s|
  {
    seq(|s|, i requires 0 <= i < |s| => LowerChar(s[i]))
  }

  /** The same letter in the other case. */
  predicate OtherCase(c: char, d: char) {
    || ('A' <= c <= 'Z' && 'a' <= d <= 'z' && d - c == 'a' - 'A')
    || ('a' <= c <= 'z' && 'A' <= d <= 'Z' && c - d == 'a' - 'A')
  }

  /** Two texts are equal in lower case exactly if they differ in case only, and a text
      without capitals is its own lower case. */
  lemma LowerIgnoresCase(s: string, t: string)
    ensures Lower(s) == Lower(t) <==> |s| == |t| && forall i | 0 <= i < |s| :: s[i] == t[i] || OtherCase(s[i], t[i])
    ensures (forall i | 0 <= i < |s| :: !('A' <= s[i] <= 'Z')) <==> Lower(s) == s
  {
    if Lower(s) == Lower(t) {
      assert forall i | 0 <= i < |s| :: Lower(s)[i] == LowerChar(s[i]) && Lower(t)[i] == LowerChar(t[i]);
    }
    if Lower(s) == s {
      assert forall i | 0 <= i < |s| :: Lower(s)[i] == LowerChar(s[i]);
    }
  }

  function ParseStrategy(s: string): (r: Option<LBStrategy>) {
    var l := Lower(s);
    if l == "random" then Some(Random)
    else if l in ["roundrobin", "round-robin", "round_robin"] then Some(RoundRobin)
    else if l in ["minimum-open-connections", "minimum_open_connections", "minimumopenconnections",
                  "min-open-connections", "min_open_connections", "minopenconnections"]
    then Some(MinimumOpenConnections)
    else None
  }

  function ShowStrategy(strategy: LBStrategy): (s: string) {
    match strategy
    case Random => "random"
    case RoundRobin => "round-robin"
    case MinimumOpenConnections => "minimum-open-connections"
  }

  function JoinWords(words: seq<string>, separator: string): (s: string)
    requires words != []
  {
    if |words| == 1 then words[0] else words[0] + separator + JoinWords(words[1..], separator)
  }

  predicate IsSpelling(s: string, strategy: LBStrategy, separator: string) {
    match strategy
    case Random => s == JoinWords(["random"], separator)
    case RoundRobin => s == JoinWords(["round", "robin"], separator)
    case MinimumOpenConnections =>
      || s == JoinWords(["minimum", "open", "connections"], separator)
      || s == JoinWords(["min", "open", "connections"], separator)
  }

  /** The names of a strategy: its words, in any case, all joined by hyphens, all by
      underscores or all by nothing. */
  predicate IsNameOf(s: string, strategy: LBStrategy) {
    IsSpelling(Lower(s), strategy, "") || IsSpelling(Lower(s), strategy, "-") || IsSpelling(Lower(s), strategy, "_")
  }

  lemma JoinTwo(a: string, b: string, separator: string)
    ensures JoinWords([a, b], separator) == a + separator + b
  {
    assert [a, b][1..] == [b];
  }

  lemma JoinThree(a: string, b: string, c: string, separator: string)
    ensures JoinWords([a, b, c], separator) == a + separator + (b + separator + c)
  {
    assert [a, b, c][1..] == [b, c];
    JoinTwo(b, c, separator);
  }

  /** Exactly these names are read, each as its strategy. */
  lemma StrategyNames(s: string, strategy: LBStrategy)
    ensures ParseStrategy(s) == Some(strategy) <==> IsNameOf(s, strategy)
  {
    hide Lower, JoinWords;
    forall separator | separator in ["", "-", "_"]
      ensures JoinWords(["random"], separator) == "random"
      ensures JoinWords(["round", "robin"], separator) == "round" + separator + "robin"
      ensures JoinWords(["minimum", "open", "connections"], separator) == "minimum" + separator + ("open" + separator + "connections")
      ensures JoinWords(["min", "open", "connections"], separator) == "min" + separator + ("open" + separator + "connections")
    {
      JoinOne("random", separator);
      JoinTwo("round", "robin", separator);
      JoinThree("minimum", "open", "connections", separator);
      JoinThree("min", "open", "connections", separator);
    }
    Spellings();
    LongSpellings();
  }

  lemma JoinOne(a: string, separator: string)
    ensures JoinWords([a], separator) == a
  {
  }

  lemma Spellings()
    ensures "round" + "" + "robin" == "roundrobin" && "round" + "-" + "robin" == "round-robin" && "round" + "_" + "robin" == "round_robin"
    ensures "min" + "" + ("open" + "" + "connections") == "minopenconnections"
    ensures "min" + "-" + ("open" + "-" + "connections") == "min-open-connections"
    ensures "min" + "_" + ("open" + "_" + "connections") == "min_open_connections"
  {
  }

  lemma LongSpellings()
    ensures "minimum" + "" + ("open" + "" + "connections") == "minimumopenconnections"
    ensures "minimum" + "-" + ("open" + "-" + "connections") == "minimum-open-connections"
    ensures "minimum" + "_" + ("open" + "_" + "connections") == "minimum_open_connections"
  {
  }

  /** A strategy is printed as its full words joined by hyphens. */
  lemma StrategyPrinted()
    ensures ShowStrategy(Random) == "random"
    ensures ShowStrategy(RoundRobin) == JoinWords(["round", "robin"], "-")
    ensures ShowStrategy(MinimumOpenConnections) == JoinWords(["minimum", "open", "connections"], "-")
  {
    JoinTwo("round", "robin", "-");
    JoinThree("minimum", "open", "connections", "-");
    Spellings();
    LongSpellings();
  }

  lemma StrategyRoundTrip(strategy: LBStrategy)
    ensures ParseStrategy(ShowStrategy(strategy)) == Some(strategy)
  {
    assert Lower(ShowStrategy(strategy)) == ShowStrategy(strategy);
  }

  // -------------------------------------------------------------- the options

  type Item = (string, string)

  /** name=value, where the value ends before a comma or a closing bracket. */
  function ParseItem(s: string): (r: IResult<Item>)
    ensures r.Parsed? ==> |r.rest| <= |s|
    ensures !r.Failure?
  {
    var n := Span(s, OptionNameChars);
    match Char(s[n..], '=')
    case Parsed(after, _) =>
      var m := Span(after, OptionValueChars);
      Parsed(after[m..], (s[..n], after[..m]))
    case _ => Error
  }

  function ParseItems(s: string): (r: IResult<seq<Item>>)
    ensures !r.Failure?
    decreases |s|
  {
    match ParseItem(s)
    case Parsed(rest, item) => (
      match Char(rest, ',')
      case Parsed(after, _) => (
        match ParseItems(after)
        case Parsed(rest', items) => Parsed(rest', [item] + items)
        case _ => Parsed(rest, [item]))
      case _ => Parsed(rest, [item]))
    case _ => Error
  }

  predicate IsItem(item: Item) {
    All(item.0, OptionNameChars) && All(item.1, OptionValueChars)
  }

  ghost predicate AreItems(items: seq<Item>) {
    items != [] && forall i | 0 <= i < |items| :: IsItem(items[i])
  }

  function ShowItem(item: Item): (s: string) {
    item.0 + (['='] + item.1)
  }

  function JoinItems(items: seq<Item>): (s: string)
    requires items != []
  {
    if |items| == 1 then ShowItem(items[0]) else ShowItem(items[0]) + ([','] + JoinItems(items[1..]))
  }

  lemma ItemExact(item: Item, follow: string)
    requires IsItem(item) && Ends(OptionValueChars, follow)
    ensures ParseItem(ShowItem(item) + follow) == Parsed(follow, item)
  {
    var after := item.1 + follow;
    Assoc(item.0, ['='] + item.1, follow);
    Assoc(['='], item.1, follow);
    SpanFollow(item.0, ['='] + after, OptionNameChars);
    SplitAppend(item.0, ['='] + after);
    CharExact('=', after);
    SpanFollow(item.1, follow, OptionValueChars);
    SplitAppend(item.1, follow);
  }

  lemma Rejoin(s: string, n: nat, after: string, m: nat)
    requires n <= |s| && s[n..] == ['='] + after && m <= |after|
    ensures s == (s[..n] + (['='] + after[..m])) + after[m..]
  {
    Assoc(['='], after[..m], after[m..]);
    Assoc(s[..n], ['='] + after[..m], after[m..]);
    assert after == after[..m] + after[m..] && s == s[..n] + s[n..];
  }

  lemma ItemSound(s: string)
    requires ParseItem(s).Parsed?
    ensures s == ShowItem(ParseItem(s).value) + ParseItem(s).rest && IsItem(ParseItem(s).value)
  {
    var n := Span(s, OptionNameChars);
    var after := Char(s[n..], '=').rest;
    CharSound(s[n..], '=');
    hide Char, Span, All;
    SpanAll(s, OptionNameChars);
    SpanAll(after, OptionValueChars);
    Rejoin(s, n, after, Span(after, OptionValueChars));
  }

  lemma ItemsUnfold(s: string, rest: string, item: Item)
    requires ParseItem(s) == Parsed(rest, item)
    ensures var after := Char(rest, ',');
            ParseItems(s) == if after.Parsed? && ParseItems(after.rest).Parsed?
                             then Parsed(ParseItems(after.rest).rest, [item] + ParseItems(after.rest).value)
                             else Parsed(rest, [item])
  {
    hide ParseItem;
  }

  /** Every list of items is read up to the bracket that closes it, ... */
  lemma {:induction false} ItemsExact(items: seq<Item>, follow: string)
    requires AreItems(items) && (follow != "" ==> follow[0] == ']')
    ensures ParseItems(JoinItems(items) + follow) == Parsed(follow, items)
    decreases |items|
  {
    hide ParseItem, ParseItems, IsItem;
    var first := ShowItem(items[0]);
    if |items| == 1 {
      ItemExact(items[0], follow);
      ItemsUnfold(first + follow, follow, items[0]);
      assert items == [items[0]];
    } else {
      var more := JoinItems(items[1..]);
      ItemsExact(items[1..], follow);
      Assoc(first, [','] + more, follow);
      Assoc([','], more, follow);
      ItemExact(items[0], [','] + (more + follow));
      ItemsUnfold(first + ([','] + (more + follow)), [','] + (more + follow), items[0]);
      CharExact(',', more + follow);
      assert items == [items[0]] + items[1..];
    }
  }

  lemma JoinItemsCons(item: Item, items: seq<Item>)
    requires items != []
    ensures JoinItems([item] + items) == ShowItem(item) + ([','] + JoinItems(items))
  {
    assert ([item] + items)[1..] == items;
  }

  /** ... and what is read as a list of items is one. */
  lemma {:induction false} ItemsSound(s: string)
    requires ParseItems(s).Parsed?
    ensures AreItems(ParseItems(s).value) && s == JoinItems(ParseItems(s).value) + ParseItems(s).rest
    decreases |s|
  {
    hide ParseItem, IsItem, ShowItem, JoinItems;
    ItemSound(s);
    var item, rest := ParseItem(s).value, ParseItem(s).rest;
    ItemsUnfold(s, rest, item);
    hide ParseItems;
    var after := Char(rest, ',');
    if after.Parsed? && ParseItems(after.rest).Parsed? {
      ItemsSound(after.rest);
      CharSound(rest, ',');
      var items, end := ParseItems(after.rest).value, ParseItems(after.rest).rest;
      JoinItemsCons(item, items);
      Assoc([','], JoinItems(items), end);
      Assoc(ShowItem(item), [','] + JoinItems(items), end);
    } else {
      OneItem(item);
    }
  }

  lemma OneItem(item: Item)
    ensures JoinItems([item]) == ShowItem(item)
  {
  }

  function ParseBool(s: string): (r: Option<bool>) {
    if s == "true" then Some(true) else if s == "false" then Some(false) else None
  }

  /** What an option with this name, in lower case, does. */
  function SetOption(o: TunnelOptions, item: Item, isFloat: string -> bool): (r: Option<TunnelOptions>) {
    var (name, value) := item;
    var key := Lower(name);
    if key == "strategy" then
      match ParseStrategy(value) case None => None case Some(v) => Some(o.(strategy := v))
    else if key == "retries" then
      match ParseUnsigned(value, MAX_U16) case None => None case Some(v) => Some(o.(remoteConnectRetries := v))
    else if key == "timeout" then
      if isFloat(value) then Some(o.(options := o.options.(connectTimeout := Float(value)))) else None
    else if key == "errors" then
      match ParseUnsigned(value, MAX_U64) case None => None case Some(v) => Some(o.(options := o.options.(errorsTillDead := v)))
    else if key == "check-interval" then
      if isFloat(value) then Some(o.(options := o.options.(deadRetry := Float(value)))) else None
    else if key == "remote-tls" then
      match ParseBool(value) case None => None case Some(v) => Some(o.(options := o.options.(tls := v)))
    else None
  }

  function SetOptions(o: TunnelOptions, items: seq<Item>, isFloat: string -> bool): (r: Option<TunnelOptions>)
    decreases |items|
  {
    if items == [] then Some(o)
    else match SetOption(o, items[0], isFloat)
         case None => None
         case Some(o') => SetOptions(o', items[1..], isFloat)
  }

  /** The loop over the items: start from the defaults, set one option after the
      other, give up at the first that is unknown or malformed. */
  method FillOptions(defaults: TunnelOptions, items: seq<Item>, isFloat: string -> bool) returns (r: Option<TunnelOptions>)
    ensures r == SetOptions(defaults, items, isFloat)
  {
    var options := defaults;
    for i := 0 to |items|
      invariant SetOptions(options, items[i..], isFloat) == SetOptions(defaults, items, isFloat)
    {
      assert items[i..][0] == items[i] && items[i..][1..] == items[i + 1..];
      var set' := SetOption(options, items[i], isFloat);
      if set'.None? {
        return None;
      }
      options := set'.value;
    }
    assert items[|items|..] == [];
    r := Some(options);
  }

  /** An item that names an option and gives it a value it can take. */
  ghost predicate IsValidItem(item: Item, isFloat: string -> bool) {
    var key := Lower(item.0);
    || (key == "strategy" && exists strategy :: IsNameOf(item.1, strategy))
    || (key == "retries" && exists n: nat :: WritesNumber(item.1, 65535, n))
    || (key == "errors" && exists n: nat :: WritesNumber(item.1, 0xFFFF_FFFF_FFFF_FFFF, n))
    || (key in ["timeout", "check-interval"] && isFloat(item.1))
    || (key == "remote-tls" && item.1 in ["true", "false"])
  }

  lemma SetOptionIff(o: TunnelOptions, item: Item, isFloat: string -> bool)
    ensures SetOption(o, item, isFloat).Some? <==> IsValidItem(item, isFloat)
  {
    forall strategy {
      StrategyNames(item.1, strategy);
    }
    forall n: nat, max: nat {
      ParseUnsignedIff(item.1, max, n);
    }
    hide Lower, IsNameOf, WritesNumber, ParseStrategy, ParseUnsigned;
    assert ParseStrategy(item.1).Some? ==> IsNameOf(item.1, ParseStrategy(item.1).value);
    assert ParseUnsigned(item.1, MAX_U16).Some? ==> WritesNumber(item.1, MAX_U16, ParseUnsigned(item.1, MAX_U16).value);
    assert ParseUnsigned(item.1, MAX_U64).Some? ==> WritesNumber(item.1, MAX_U64, ParseUnsigned(item.1, MAX_U64).value);
  }

  /** The value of the last item with this key. */
  function LastValue(items: seq<Item>, key: string): (v: Option<string>) {
    if items == [] then None
    else if LastValue(items[1..], key).Some? then LastValue(items[1..], key)
    else if Lower(items[0].0) == key then Some(items[0].1) else None
  }

  /** Options are accepted exactly when every item is valid. */
  lemma {:induction false} OptionsAccepted(o: TunnelOptions, items: seq<Item>, isFloat: string -> bool)
    ensures SetOptions(o, items, isFloat).Some? <==> forall item | item in items :: IsValidItem(item, isFloat)
    decreases |items|
  {
    if items != [] {
      SetOptionIff(o, items[0], isFloat);
      hide SetOption, IsValidItem;
      assert items == [items[0]] + items[1..];
      if SetOption(o, items[0], isFloat).Some? {
        OptionsAccepted(SetOption(o, items[0], isFloat).value, items[1..], isFloat);
      }
    }
  }

  const KEYS: seq<string> := ["strategy", "retries", "timeout", "errors", "check-interval", "remote-tls"]

  /** `r` has the given value for this option or, without one, what `o` has. */
  ghost predicate HasValue(r: TunnelOptions, key: string, value: Option<string>, o: TunnelOptions) {
    match value
    case None =>
      && (key == "strategy" ==> r.strategy == o.strategy)
      && (key == "retries" ==> r.remoteConnectRetries == o.remoteConnectRetries)
      && (key == "timeout" ==> r.options.connectTimeout == o.options.connectTimeout)
      && (key == "errors" ==> r.options.errorsTillDead == o.options.errorsTillDead)
      && (key == "check-interval" ==> r.options.deadRetry == o.options.deadRetry)
      && (key == "remote-tls" ==> r.options.tls == o.options.tls)
    case Some(v) =>
      && (key == "strategy" ==> IsNameOf(v, r.strategy))
      && (key == "retries" ==> WritesNumber(v, 65535, r.remoteConnectRetries))
      && (key == "timeout" ==> r.options.connectTimeout == Float(v))
      && (key == "errors" ==> WritesNumber(v, 0xFFFF_FFFF_FFFF_FFFF, r.options.errorsTillDead))
      && (key == "check-interval" ==> r.options.deadRetry == Float(v))
      && (key == "remote-tls" ==> if r.options.tls then v == "true" else v == "false")
  }

  lemma SetNamedOption(o: TunnelOptions, item: Item, isFloat: string -> bool)
    requires SetOption(o, item, isFloat).Some?
    ensures HasValue(SetOption(o, item, isFloat).value, Lower(item.0), Some(item.1), o)
  {
    var o' := SetOption(o, item, isFloat).value;
    StrategyNames(item.1, o'.strategy);
    ParseUnsignedIff(item.1, MAX_U16, o'.remoteConnectRetries);
    ParseUnsignedIff(item.1, MAX_U64, o'.options.errorsTillDead);
    hide ParseStrategy, ParseUnsigned, IsNameOf, WritesNumber, Lower;
  }

  lemma SetOneOption(o: TunnelOptions, item: Item, isFloat: string -> bool, key: string)
    requires SetOption(o, item, isFloat).Some? && key in KEYS
    ensures HasValue(SetOption(o, item, isFloat).value, key, if Lower(item.0) == key then Some(item.1) else None, o)
  {
    SetNamedOption(o, item, isFloat);
    hide ParseStrategy, ParseUnsigned, ParseBool, IsNameOf, WritesNumber, Lower;
  }

  /** An accepted list gives every option the last value listed for it, and
      leaves it alone if there is none. */
  lemma {:induction false} OptionsLastWins(o: TunnelOptions, items: seq<Item>, isFloat: string -> bool, key: string)
    requires SetOptions(o, items, isFloat).Some? && key in KEYS
    ensures HasValue(SetOptions(o, items, isFloat).value, key, LastValue(items, key), o)
    decreases |items|
  {
    if items != [] {
      SetOneOption(o, items[0], isFloat, key);
      hide SetOption, ParseStrategy, ParseUnsigned, ParseBool, Lower;
      OptionsLastWins(SetOption(o, items[0], isFloat).value, items[1..], isFloat, key);
    }
  }

  function ParseOptions(s: string, defaults: TunnelOptions, isFloat: string -> bool): (r: IResult<TunnelOptions>) {
    match ParseItems(s)
    case Parsed(rest, items) => (
      match SetOptions(defaults, items, isFloat)
      case Some(o) => Parsed(rest, o)
      case None => Failure)
    case _ => Error
  }

  // --------------------------------------------------------------- the tunnel

  function ParseSpecs(s: string): (r: IResult<seq<SocketSpec>>)
    ensures !r.Failure?
    decreases |s|
  {
    ParseShrinks(s);
    match ParseSocketSpec(s)
    case Parsed(rest, spec) => (
      match Char(rest, ',')
      case Parsed(after, _) => (
        match ParseSpecs(after)
        case Parsed(rest', specs) => Parsed(rest', [spec] + specs)
        case _ => Parsed(rest, [spec]))
      case _ => Parsed(rest, [spec]))
    case _ => Error
  }

  /** Options in brackets, if there are any; a failure inside is final. */
  function ParseBracketed(s: string, defaults: TunnelOptions, isFloat: string -> bool): (r: IResult<Option<TunnelOptions>>) {
    match Char(s, '[')
    case Parsed(inside, _) => (
      match ParseOptions(inside, defaults, isFloat)
      case Parsed(after, o) => (
        match Char(after, ']')
        case Parsed(rest, _) => Parsed(rest, Some(o))
        case _ => Parsed(s, None))
      case Error => Parsed(s, None)
      case Failure => Failure)
    case _ => Parsed(s, None)
  }

  function ParseRemotes(local: SocketSpec, s: string, defaults: TunnelOptions, isFloat: string -> bool): (r: IResult<Tunnel>) {
    match ParseSpecs(s)
    case Parsed(afterSpecs, remote) => (
      match ParseBracketed(afterSpecs, defaults, isFloat)
      case Parsed(rest, o) => if rest == "" then Parsed("", Tunnel(local, remote, o)) else Error
      case Error => Error
      case Failure => Failure)
    case _ => Error
  }

  /** local=remote,remote...[options], and nothing else. */
  function ParseTunnel(s: string, defaults: TunnelOptions, isFloat: string -> bool): (r: IResult<Tunnel>) {
    match ParseSocketSpec(s)
    case Parsed(afterLocal, local) => (
      match Char(afterLocal, '=')
      case Parsed(remotes, _) => ParseRemotes(local, remotes, defaults, isFloat)
      case _ => Error)
    case _ => Error
  }

  function JoinComma(specs: seq<SocketSpec>): (s: string) {
    if specs == [] then ""
    else if |specs| == 1 then specs[0].inner
    else specs[0].inner + ([','] + JoinComma(specs[1..]))
  }

  function ShowTunnel(t: Tunnel): (s: string) {
    t.local.inner + (['='] + JoinComma(t.remote))
  }

  lemma {:induction false} JoinCommaSnoc(specs: seq<SocketSpec>, last: SocketSpec)
    ensures JoinComma(specs + [last]) == if specs == [] then last.inner else JoinComma(specs) + ([','] + last.inner)
  {
    if specs == [] {
      assert specs + [last] == [last];
    } else {
      assert (specs + [last])[1..] == specs[1..] + [last];
      JoinCommaSnoc(specs[1..], last);
      if |specs| > 1 {
        Assoc([','], JoinComma(specs[1..]), [','] + last.inner);
        Assoc(specs[0].inner, [','] + JoinComma(specs[1..]), [','] + last.inner);
      }
    }
  }

  /** Appends to the formatter, a comma before every remote but the first. */
  method Display(t: Tunnel) returns (f: string)
    ensures f == ShowTunnel(t)
  {
    f := t.local.inner + "=";
    for n := 0 to |t.remote|
      invariant f == t.local.inner + (['='] + JoinComma(t.remote[..n]))
    {
      JoinCommaSnoc(t.remote[..n], t.remote[n]);
      assert t.remote[..n + 1] == t.remote[..n] + [t.remote[n]];
      if n > 0 {
        f := f + ",";
      }
      f := f + t.remote[n].inner;
    }
    assert t.remote[..|t.remote|] == t.remote;
  }

  predicate SpecsEnd(follow: string) {
    Ends(Digits, follow) && (follow != "" ==> follow[0] != ',')
  }

  lemma SpecsUnfold(s: string, rest: string, spec: SocketSpec)
    requires ParseSocketSpec(s) == Parsed(rest, spec)
    ensures var after := Char(rest, ',');
            ParseSpecs(s) == if after.Parsed? && ParseSpecs(after.rest).Parsed?
                             then Parsed(ParseSpecs(after.rest).rest, [spec] + ParseSpecs(after.rest).value)
                             else Parsed(rest, [spec])
  {
    hide ParseSocketSpec;
  }

  /** The printed remotes are read back, up to what follows them. */
  lemma {:induction false} SpecsParse(specs: seq<SocketSpec>, follow: string)
    requires specs != [] && (forall i | 0 <= i < |specs| :: IsNormal(specs[i])) && SpecsEnd(follow)
    ensures ParseSpecs(JoinComma(specs) + follow) == Parsed(follow, specs)
  {
    hide ParseSocketSpec, IsNormal, ParseSpecs;
    var first := specs[0].inner;
    if |specs| == 1 {
      NormalParses(specs[0], follow);
      SpecsUnfold(first + follow, follow, specs[0]);
      assert specs == [specs[0]];
    } else {
      var more := JoinComma(specs[1..]);
      SpecsParse(specs[1..], follow);
      Assoc(first, [','] + more, follow);
      Assoc([','], more, follow);
      NormalParses(specs[0], [','] + (more + follow));
      SpecsUnfold(first + ([','] + (more + follow)), [','] + (more + follow), specs[0]);
      CharExact(',', more + follow);
      assert specs == [specs[0]] + specs[1..];
    }
  }

  ghost predicate AllNormal(specs: seq<SocketSpec>) {
    specs != [] && forall i | 0 <= i < |specs| :: IsNormal(specs[i])
  }

  lemma {:induction false} SpecsSound(s: string)
    requires ParseSpecs(s).Parsed?
    ensures AllNormal(ParseSpecs(s).value)
    decreases |s|
  {
    hide ParseSocketSpec, IsNormal;
    ParseShrinks(s);
    ParsedIsNormal(s);
    var spec, rest := ParseSocketSpec(s).value, ParseSocketSpec(s).rest;
    SpecsUnfold(s, rest, spec);
    hide ParseSpecs;
    var after := Char(rest, ',');
    if after.Parsed? && ParseSpecs(after.rest).Parsed? {
      SpecsSound(after.rest);
    }
  }

  ghost predicate IsParsable(t: Tunnel) {
    IsNormal(t.local) && forall i | 0 <= i < |t.remote| :: IsNormal(t.remote[i])
  }

  /** A printed tunnel, with or without options behind it, is read back. */
  lemma TunnelParses(t: Tunnel, tail: string, defaults: TunnelOptions, isFloat: string -> bool)
    requires IsParsable(t) && t.remote != [] && SpecsEnd(tail)
    ensures ParseTunnel(ShowTunnel(t) + tail, defaults, isFloat)
            == match ParseBracketed(tail, defaults, isFloat)
               case Parsed(rest, o) => if rest == "" then Parsed("", Tunnel(t.local, t.remote, o)) else Error
               case Error => Error
               case Failure => Failure
  {
    var remotes := JoinComma(t.remote) + tail;
    Assoc(t.local.inner, ['='] + JoinComma(t.remote), tail);
    Assoc(['='], JoinComma(t.remote), tail);
    hide ParseSocketSpec, IsNormal, ParseSpecs, JoinComma, ParseBracketed;
    NormalParses(t.local, ['='] + remotes);
    CharExact('=', remotes);
    SpecsParse(t.remote, tail);
  }

  lemma BracketedParses(items: seq<Item>, defaults: TunnelOptions, isFloat: string -> bool)
    requires AreItems(items)
    ensures ParseBracketed(['['] + (JoinItems(items) + [']']), defaults, isFloat)
            == match SetOptions(defaults, items, isFloat)
               case Some(o) => Parsed("", Some(o))
               case None => Failure
  {
    ItemsExact(items, [']']);
    CharExact('[', JoinItems(items) + [']']);
    CharExact(']', "");
    assert [']'] + "" == [']'];
    hide ParseItems, JoinItems, SetOptions;
  }

  /** A printed tunnel with a list of options in brackets is read as that tunnel with
      these options, and rejected for good if one of them is not valid. */
  lemma TunnelWithOptions(t: Tunnel, items: seq<Item>, defaults: TunnelOptions, isFloat: string -> bool)
    requires IsParsable(t) && t.remote != [] && AreItems(items)
    ensures ParseTunnel(ShowTunnel(t) + (['['] + (JoinItems(items) + [']'])), defaults, isFloat)
            == match SetOptions(defaults, items, isFloat)
               case Some(o) => Parsed("", t.(options := Some(o)))
               case None => Failure
  {
    TunnelParses(t, ['['] + (JoinItems(items) + [']']), defaults, isFloat);
    BracketedParses(items, defaults, isFloat);
    hide ParseTunnel, ParseBracketed, SetOptions, ShowTunnel, JoinItems;
  }

  /** Printing then parsing is the identity on the local socket and the remotes,
      exactly for the tunnels that have a remote. */
  lemma PrintThenParse(t: Tunnel, defaults: TunnelOptions, isFloat: string -> bool)
    requires IsParsable(t)
    ensures ParseTunnel(ShowTunnel(t), defaults, isFloat) == Parsed("", t.(options := None)) <==> t.remote != []
  {
    if t.remote != [] {
      TunnelParses(t, "", defaults, isFloat);
      assert ShowTunnel(t) + "" == ShowTunnel(t);
    } else if ParseTunnel(ShowTunnel(t), defaults, isFloat).Parsed? {
      TunnelSound(ShowTunnel(t), defaults, isFloat);
    }
  }

  /** Every tunnel that is read has normal specifications and some remote. */
  lemma TunnelSound(s: string, defaults: TunnelOptions, isFloat: string -> bool)
    requires ParseTunnel(s, defaults, isFloat).Parsed?
    ensures ParseTunnel(s, defaults, isFloat).rest == ""
    ensures IsParsable(ParseTunnel(s, defaults, isFloat).value) && ParseTunnel(s, defaults, isFloat).value.remote != []
  {
    ParsedIsNormal(s);
    hide ParseSocketSpec, IsNormal;
    SpecsSound(Char(ParseSocketSpec(s).rest, '=').rest);
  }

  /** What was read once is read again from its printed form, options aside. */
  lemma ParseThenPrint(s: string, defaults: TunnelOptions, isFloat: string -> bool)
    requires ParseTunnel(s, defaults, isFloat).Parsed?
    ensures var t := ParseTunnel(s, defaults, isFloat).value;
            ParseTunnel(ShowTunnel(t), defaults, isFloat) == Parsed("", t.(options := None))
  {
    TunnelSound(s, defaults, isFloat);
    PrintThenParse(ParseTunnel(s, defaults, isFloat).value, defaults, isFloat);
  }
}
