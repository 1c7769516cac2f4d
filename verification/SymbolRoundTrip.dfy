/** Parsing and printing symbols undo each other. */
module SymbolRoundTrip {
  import opened Numbers
  import opened Types
  import opened Symbols

  /** A token of upper-cased text split at dashes. */
  predicate Clean(t: string) { '-' !in t && Upper(t) == t }

  ghost predicate AllClean(tokens: seq<string>) {
    forall i :: 0 <= i < |tokens| ==> Clean(tokens[i])
  }

  /** Fields that only a parsed symbol has, whatever text it came from. */
  ghost predicate WellFormed(p: Parsed) {
    && p.underlying != "" && UnderlyingText(p.underlying) && Upper(p.underlying) == p.underlying
    && (p.exchange.NSE? <==> !p.kind.Future? && !p.kind.Opt?)
    && (p.expiry.Some? <==> p.kind.Future? || p.kind.Opt?)
    && (p.expiry.Some? ==> ExpiryToken(p.expiry.value) && Clean(p.expiry.value))
    && (p.strike.Some? <==> p.kind.Opt?) && (p.option.Some? <==> p.kind.Opt?)
    && (p.strike.Some? ==> p.strike.value >= 0.0)
    && (!p.expiry.Some? ==> PlainTokens(Split(p.underlying)) && p.kind == CashKind(p.underlying))
  }

  function CashKind(underlying: string): Kind {
    if underlying in IndexNames() || '_' in underlying then Index else Equity
  }

  /** Tokens that neither end in FUT nor look like a derivative. */
  predicate PlainTokens(tokens: seq<string>) {
    var n := |tokens|;
    && n >= 1
    && tokens[n - 1] != "FUT"
    && !(n >= 4 && tokens[n - 1] in {"CE", "PE"})
    && !(n >= 2 && ExpiryToken(tokens[n - 1]))
  }

  lemma ExpiryIsNoKeyword(t: string)
    requires ExpiryToken(t)
    ensures |t| >= 5 && t != "FUT" && t !in {"CE", "PE"}
  {
  }

  lemma {:induction false} WholeIsNatural(s: string)
    requires AllDigits(s)
    ensures Whole(s) >= 0
  {
    if |s| > 0 {
      WholeIsNatural(s[..|s| - 1]);
    }
  }

  lemma StrikeIsNotNegative(t: string)
    requires StrikeToken(t)
    ensures StrikeValue(t) >= 0.0
  {
    var u := Trimmed(t);
    var i := Dot(u);
    assert u[..i] + u[i..] == u;
    if i == |u| {
      assert u[..i] == u;
      WholeIsNatural(u);
    } else {
      WholeIsNatural(u[..i]);
      WholeIsNatural(u[i + 1..]);
      assert Whole(u[i + 1..]) as real / Power10(|u| - i - 1) as real >= 0.0;
    }
  }

  lemma {:induction false} CleanJoin(tokens: seq<string>)
    requires AllClean(tokens) && |tokens| >= 1
    ensures Upper(Join(tokens)) == Join(tokens) && Split(Join(tokens)) == tokens
  {
    UpperJoin(tokens);
    assert UpperAll(tokens) == tokens;
    SplitOfJoin(tokens);
  }

  /** Whatever is accepted is well formed. */
  lemma ParsedIsWellFormed(e: Exchange, tokens: seq<string>)
    requires |tokens| >= 1 && AllClean(tokens) && ParseTokens(e, tokens).Some?
    requires tokens[|tokens| - 1] != "FUT"
    ensures WellFormed(ParseTokens(e, tokens).value) && ParseTokens(e, tokens).value.exchange == e
  {
    hide UnderlyingText, ExpiryToken, StrikeToken, StrikeValue, IndexNames, Join, Split, Upper;
    var n := |tokens|;
    if n >= 4 && tokens[n - 1] in {"CE", "PE"} {
      CleanJoin(tokens[..n - 3]);
      StrikeIsNotNegative(tokens[n - 2]);
    } else if n >= 2 && ExpiryToken(tokens[n - 1]) {
      CleanJoin(tokens[..n - 1]);
    } else {
      CleanJoin(tokens);
    }
  }

  lemma ParseIsWellFormed(s: string)
    requires Parse(s).Some?
    ensures WellFormed(Parse(s).value)
  {
    hide WellFormed, ParseTokens, ExpiryToken, Upper, Split;
    var i := Colon(s);
    var tokens := Split(Upper(s[i + 1..]));
    TokensAreClean(s[i + 1..]);
    var e := ExchangeOf(Upper(s[..i])).value;
    var n := |tokens|;
    if tokens[n - 1] == "FUT" {
      ExpiryIsNoKeyword(tokens[n - 2]);
      ParsedIsWellFormed(e, tokens[..n - 1]);
    } else {
      ParsedIsWellFormed(e, tokens);
    }
  }

  lemma TokensAreClean(s: string)
    ensures AllClean(Split(Upper(s)))
  {
    UpperTokens(s);
    var tokens := Split(Upper(s));
    forall i | 0 <= i < |tokens| ensures Clean(tokens[i]) {
      assert tokens[i] in tokens;
    }
  }

  // ---------------------------------------------------------------- reading the canonical form

  /** The tokens the canonical form splits into, a strike text possibly into several. */
  function CanonicalTokens(p: Parsed, formatG: real -> string): seq<string> {
    Split(p.underlying)
    + (if p.expiry.Some? then [p.expiry.value] else [])
    + (if p.strike.Some? && p.option.Some?
       then Split(Upper(FormatStrike(p.strike.value, formatG))) + [OptionName(p.option.value)] else [])
  }

  lemma UnderlyingTokens(p: Parsed)
    requires WellFormed(p)
    ensures Join(Split(p.underlying)) == p.underlying && AllClean(Split(p.underlying))
  {
    JoinOfSplit(p.underlying);
    TokensAreClean(p.underlying);
  }

  lemma CanonicalSplits(p: Parsed, formatG: real -> string)
    requires WellFormed(p)
    ensures Split(Upper(Join(Parts(p, formatG)))) == CanonicalTokens(p, formatG)
    ensures AllClean(CanonicalTokens(p, formatG))
  {
    hide WellFormed, FormatStrike, Split, Join, Upper, Clean;
    UnderlyingTokens(p);
    WellFormedExpiry(p);
    var u := Split(p.underlying);
    if p.strike.Some? {
      OptionSplits(p.underlying, p.expiry.value, FormatStrike(p.strike.value, formatG), p.option.value);
      assert Parts(p, formatG) == [p.underlying, p.expiry.value, FormatStrike(p.strike.value, formatG), OptionName(p.option.value)];
    } else if p.expiry.Some? {
      assert Parts(p, formatG) == [p.underlying] + [p.expiry.value];
      UpperJoin(Parts(p, formatG));
      assert UpperAll(Parts(p, formatG)) == [p.underlying] + [p.expiry.value] by { CleanIsUpper(p.expiry.value); }
      JoinConcat(u, [p.expiry.value]);
      CleanJoin(u + [p.expiry.value]);
    } else {
      assert Parts(p, formatG) == [p.underlying];
      OneToken([p.underlying]);
      CleanJoin(u);
    }
  }

  lemma CleanIsUpper(t: string)
    requires Clean(t)
    ensures Upper(t) == t
  {
  }

  /** The four parts of an option, upper-cased, joined and split again. */
  lemma OptionSplits(underlying: string, expiry: string, strike: string, option: OptionType)
    requires Join(Split(underlying)) == underlying && AllClean(Split(underlying)) && Upper(underlying) == underlying
    requires Clean(expiry)
    ensures var parts := [underlying, expiry, strike, OptionName(option)];
      var all := Split(underlying) + [expiry] + (Split(Upper(strike)) + [OptionName(option)]);
      Split(Upper(Join(parts))) == all && AllClean(all)
  {
    var o := OptionName(option);
    assert Clean(o);
    hide Split, Join, Upper, Clean;
    var u, f := Split(underlying), Split(Upper(strike));
    var parts := [underlying, expiry, strike, o];
    UpperFour(underlying, expiry, strike, o);
    TokensAreClean(strike);
    JoinOfSplit(Upper(strike));
    JoinInner(u, expiry, f, o);
    Regroup(u, expiry, f + [o]);
    CleanFour(u, expiry, f, o);
    CleanJoin(u + [expiry] + (f + [o]));
  }

  lemma UpperFour(underlying: string, expiry: string, strike: string, o: string)
    requires Upper(underlying) == underlying && Clean(expiry) && Clean(o)
    ensures Upper(Join([underlying, expiry, strike, o])) == Join([underlying] + ([expiry] + ([Upper(strike)] + [o])))
  {
    hide Join, Upper;
    var parts := [underlying, expiry, strike, o];
    UpperJoin(parts);
    assert UpperAll(parts) == [underlying] + ([expiry] + ([Upper(strike)] + [o]));
  }

  lemma Regroup(u: seq<string>, x: string, g: seq<string>)
    ensures u + [x] + g == u + ([x] + g)
  {
  }

  lemma CleanFour(u: seq<string>, x: string, f: seq<string>, o: string)
    requires AllClean(u) && Clean(x) && AllClean(f) && Clean(o)
    ensures AllClean(u + [x] + (f + [o]))
  {
    hide Clean;
  }

  lemma WellFormedExpiry(p: Parsed)
    requires WellFormed(p)
    ensures Upper(p.underlying) == p.underlying
    ensures p.expiry.Some? ==> Clean(p.expiry.value) && p.expiry.value != ""
    ensures p.strike.Some? ==> p.expiry.Some? && p.option.Some?
    ensures p.option.Some? ==> p.strike.Some?
  {
  }

  /** Joining the parts is joining their tokens. */
  lemma JoinInner(u: seq<string>, x: string, f: seq<string>, o: string)
    requires |u| >= 1 && |f| >= 1
    ensures Join([Join(u)] + ([x] + ([Join(f)] + [o]))) == Join(u + ([x] + (f + [o])))
  {
    JoinConcat(f, [o]);
    var inner, flat := [Join(f)] + [o], f + [o];
    assert Join([x] + inner) == x + "-" + Join(inner) by { assert ([x] + inner)[1..] == inner; }
    assert Join([x] + flat) == x + "-" + Join(flat) by { assert ([x] + flat)[1..] == flat; }
    JoinConcat(u, [x] + flat);
    assert Join([Join(u)] + ([x] + inner)) == Join(u) + "-" + Join([x] + inner) by {
      assert ([Join(u)] + ([x] + inner))[1..] == [x] + inner;
    }
    assert Join([Join(u)] + ([x] + flat)) == Join(u) + "-" + Join([x] + flat) by {
      assert ([Join(u)] + ([x] + flat))[1..] == [x] + flat;
    }
  }

  lemma CanonicalParses(p: Parsed, formatG: real -> string)
    requires WellFormed(p)
    ensures Parse(Canonical(p, formatG)) == ParseRest(p.exchange, CanonicalTokens(p, formatG))
  {
    hide WellFormed, Split, ParseRest, CanonicalTokens, Parts, Join, Colon, Upper;
    var name := ExchangeName(p.exchange);
    var s := Canonical(p, formatG);
    var rest := Join(Parts(p, formatG));
    ColonAfterName(p.exchange, rest);
    assert s == name + ":" + rest;
    assert s[..|name|] == name && s[|name| + 1..] == rest;
    CanonicalSplits(p, formatG);
  }

  lemma ColonAfterName(e: Exchange, rest: string)
    ensures var s := ExchangeName(e) + ":" + rest;
      Colon(s) == |ExchangeName(e)| && Upper(ExchangeName(e)) == ExchangeName(e) && ExchangeOf(ExchangeName(e)) == Some(e)
  {
    var name := ExchangeName(e);
    var s := name + ":" + rest;
    assert s[|name|] == ':';
    assert forall j :: 0 <= j < |name| ==> s[j] == name[j] && s[j] != ':';
  }

  lemma {:induction false} LongerJoin(a: seq<string>, c: seq<string>)
    requires |a| >= 1 && |c| >= 1
    ensures |Join(a + c)| > |Join(a)|
  {
    if |a| == 1 {
      assert (a + c)[0] == a[0] && (a + c)[1..] == c;
    } else {
      assert (a + c)[0] == a[0] && (a + c)[1..] == a[1..] + c;
      LongerJoin(a[1..], c);
    }
  }

  /** Reading the tokens of an option back. */
  lemma OptionReads(p: Parsed, formatG: real -> string)
    requires WellFormed(p) && p.kind.Opt?
    ensures ParseRest(p.exchange, CanonicalTokens(p, formatG)) == Some(p) <==> PrintsExactly(p.strike.value, formatG)
  {
    hide Split, Join, StrikeToken, StrikeValue, ExpiryToken, UnderlyingText, Upper, FormatStrike;
    var t := Upper(FormatStrike(p.strike.value, formatG));
    var u, f, o := Split(p.underlying), Split(t), OptionName(p.option.value);
    UnderlyingTokens(p);
    JoinOfSplit(t);
    assert CanonicalTokens(p, formatG) == u + [p.expiry.value] + (f + [o]);
    if |f| == 1 {
      OneToken(f);
      assert f == [t];
      WholeStrikeReads(p, u, t);
    } else {
      LongStrikeIsLost(p, u, f);
      StrikeHasNoDash(t);
      if StrikeToken(t) { SplitOfToken(t, ""); }
    }
  }

  lemma OptionBranch(e: Exchange, u: seq<string>, mid: seq<string>, x: string, k: string, o: OptionType)
    requires |u| >= 1
    ensures var name := OptionName(o);
      ParseRest(e, u + mid + [x, k, name])
      == if !StrikeToken(k) || !ExpiryToken(x) then None
         else Accept(Parsed(e, Join(u + mid), Opt, Some(x), Some(StrikeValue(k)), Some(o)))
  {
    hide Join, StrikeToken, StrikeValue, ExpiryToken, Accept;
    var name := OptionName(o);
    var all := u + mid + [x, k, name];
    var n := |all|;
    assert all[n - 1] == name && all[n - 2] == k && all[n - 3] == x && all[..n - 3] == u + mid;
    assert name != "FUT" && name in {"CE", "PE"};
    assert (name == "CE") == o.CE?;
  }

  lemma WholeStrikeReads(p: Parsed, u: seq<string>, t: string)
    requires WellFormed(p) && p.kind.Opt? && |u| >= 1 && Join(u) == p.underlying
    ensures ParseRest(p.exchange, u + [p.expiry.value] + ([t] + [OptionName(p.option.value)])) == Some(p)
       <==> StrikeToken(t) && StrikeValue(t) == p.strike.value
  {
    hide Join, StrikeToken, StrikeValue, ExpiryToken, UnderlyingText, Upper, Split, IndexNames, ParseRest, OptionName;
    var o := OptionName(p.option.value);
    OptionBranch(p.exchange, u, [], p.expiry.value, t, p.option.value);
    assert u + [] == u;
    assert u + [p.expiry.value] + ([t] + [o]) == u + [] + [p.expiry.value, t, o];
  }

  /** A strike text with a dash in it moves the underlying's end. */
  lemma LongStrikeIsLost(p: Parsed, u: seq<string>, f: seq<string>)
    requires WellFormed(p) && p.kind.Opt? && |u| >= 1 && Join(u) == p.underlying && |f| > 1
    ensures ParseRest(p.exchange, u + [p.expiry.value] + (f + [OptionName(p.option.value)])) != Some(p)
  {
    hide Join, StrikeToken, StrikeValue, ExpiryToken, UnderlyingText, Upper, Split, IndexNames, ParseRest, OptionName;
    var o, m := OptionName(p.option.value), |f|;
    var all := [p.expiry.value] + f;
    var extra, x, k := all[..m - 1], all[m - 1], all[m];
    OptionBranch(p.exchange, u, extra, x, k, p.option.value);
    assert u + [p.expiry.value] + (f + [o]) == u + extra + [x, k, o];
    LongerJoin(u, extra);
  }

  lemma OneToken(f: seq<string>)
    requires |f| == 1
    ensures Join(f) == f[0]
  {
  }

  lemma StrikeHasNoDash(t: string)
    ensures StrikeToken(t) ==> '-' !in t
  {
    var u := Trimmed(t);
    var i := Dot(u);
    if StrikeToken(t) {
      forall k | 0 <= k < |u| ensures Digit(u[k]) || u[k] == '.' {
        if k < i {
          assert u[..i][k] == u[k];
        } else if k > i {
          assert u[i + 1..][k - i - 1] == u[k];
        }
      }
      assert forall k :: 0 <= k < |t| ==> t[k] == '\n' || (k < |u| && t[k] == u[k]);
    }
  }

  lemma FutureReads(p: Parsed, formatG: real -> string)
    requires WellFormed(p) && p.kind.Future?
    ensures ParseRest(p.exchange, CanonicalTokens(p, formatG)) == Some(p)
  {
    var u := Split(p.underlying);
    var all := CanonicalTokens(p, formatG);
    UnderlyingTokens(p);
    ExpiryIsNoKeyword(p.expiry.value);
    assert all == u + [p.expiry.value];
    assert all[..|all| - 1] == u;
    hide Split, Join, ExpiryToken, UnderlyingText, Upper;
  }

  lemma CashReads(p: Parsed, formatG: real -> string)
    requires WellFormed(p) && !p.kind.Future? && !p.kind.Opt?
    ensures ParseRest(p.exchange, CanonicalTokens(p, formatG)) == Some(p)
  {
    UnderlyingTokens(p);
    assert CanonicalTokens(p, formatG) == Split(p.underlying);
    hide Split, Join, ExpiryToken, UnderlyingText, Upper, IndexNames;
  }

  // ---------------------------------------------------------------- main results

  /** Every well-formed symbol is accepted in its canonical form and read back as it was, dashes in the
      underlying notwithstanding, exactly when its strike, if it has one, is printed exactly. */
  lemma WellFormedSymbolsParse(p: Parsed, formatG: real -> string)
    requires WellFormed(p)
    ensures Parse(Canonical(p, formatG)) == Some(p) <==> (p.strike.Some? ==> PrintsExactly(p.strike.value, formatG))
  {
    hide Canonical, CanonicalTokens, ParseRest, PrintsExactly;
    CanonicalParses(p, formatG);
    if p.kind.Opt? {
      OptionReads(p, formatG);
    } else if p.kind.Future? {
      FutureReads(p, formatG);
    } else {
      CashReads(p, formatG);
    }
  }

  /** Printing an accepted symbol and parsing that gives the same symbol back, dashes in the underlying and
      FUT suffixes notwithstanding, exactly when its strike, if it has one, is printed exactly. */
  lemma ParsingInvertsPrinting(s: string, formatG: real -> string)
    requires Parse(s).Some?
    ensures var p := Parse(s).value;
      Parse(Canonical(p, formatG)) == Some(p) <==> (p.strike.Some? ==> PrintsExactly(p.strike.value, formatG))
  {
    hide Canonical, PrintsExactly, WellFormed;
    ParseIsWellFormed(s);
    WellFormedSymbolsParse(Parse(s).value, formatG);
  }

  /** The last of the texts between dashes after the exchange, upper-cased. */
  function LastToken(s: string): string
    requires Colon(s) < |s|
  {
    var tokens := Split(Upper(s[Colon(s) + 1..]));
    tokens[|tokens| - 1]
  }

  /** A FUT suffix changes nothing for a future and makes anything else unacceptable. */
  lemma FutSuffixIsOptional(s: string)
    requires Colon(s) < |s| && LastToken(s) != "FUT"
    ensures Parse(s + "-FUT") == if Parse(s).Some? && Parse(s).value.kind.Future? then Parse(s) else None
  {
    hide *;
    SuffixStays(s, "-FUT");
    var i, t := Colon(s), s + "-FUT";
    ParseAt(s, i);
    ParseAt(t, i);
    LastOf(s);
    SplitWithSuffix(s[i + 1..]);
    var tokens := Split(Upper(s[i + 1..]));
    var e := ExchangeOf(Upper(s[..i]));
    if e.Some? {
      SuffixReads(e.value, tokens);
      UnsuffixedReads(e.value, tokens);
    }
  }

  lemma LastOf(s: string)
    requires Colon(s) < |s|
    ensures var tokens := Split(Upper(s[Colon(s) + 1..])); |tokens| >= 1 && LastToken(s) == tokens[|tokens| - 1]
  {
    hide Split, Upper, Colon;
  }

  lemma SuffixStays(s: string, tail: string)
    requires Colon(s) < |s|
    ensures var i, t := Colon(s), s + tail;
      i < |t| && Colon(t) == i && t[..i] == s[..i] && t[i + 1..] == s[i + 1..] + tail
  {
    hide Colon;
    ColonStays(s, tail);
    Sliced(s, tail, Colon(s));
  }

  lemma Sliced(s: string, tail: string, i: nat)
    requires i < |s|
    ensures (s + tail)[..i] == s[..i] && (s + tail)[i + 1..] == s[i + 1..] + tail
  {
  }

  lemma ParseAt(s: string, i: nat)
    requires i == Colon(s) < |s|
    ensures var e := ExchangeOf(Upper(s[..i]));
      Parse(s) == if e.None? then None else ParseRest(e.value, Split(Upper(s[i + 1..])))
  {
    hide Split, Upper, Colon, ParseRest, ExchangeOf;
  }

  lemma UnsuffixedReads(e: Exchange, tokens: seq<string>)
    requires |tokens| >= 1 && tokens[|tokens| - 1] != "FUT"
    ensures ParseRest(e, tokens) == ParseTokens(e, tokens)
  {
    hide ParseTokens;
  }

  lemma SuffixReads(e: Exchange, tokens: seq<string>)
    requires |tokens| >= 1 && tokens[|tokens| - 1] != "FUT"
    ensures var r := ParseTokens(e, tokens);
      ParseRest(e, tokens + ["FUT"]) == if r.Some? && r.value.kind.Future? then r else None
  {
    hide ExpiryToken, StrikeToken, StrikeValue, Join, UnderlyingText, IndexNames;
    var n := |tokens|;
    assert (tokens + ["FUT"])[..n] == tokens && (tokens + ["FUT"])[n] == "FUT" && (tokens + ["FUT"])[n - 1] == tokens[n - 1];
    if ExpiryToken(tokens[n - 1]) {
      ExpiryIsNoKeyword(tokens[n - 1]);
    }
  }

  lemma {:induction false} ColonStays(s: string, tail: string)
    requires Colon(s) < |s|
    ensures Colon(s + tail) == Colon(s)
  {
    if s[0] != ':' {
      assert (s + tail)[1..] == s[1..] + tail;
      ColonStays(s[1..], tail);
    }
  }

  lemma SplitWithSuffix(rest: string)
    ensures Split(Upper(rest + "-FUT")) == Split(Upper(rest)) + ["FUT"]
  {
    UpperConcat(rest, "-FUT");
    assert Upper("-FUT") == "-FUT";
    hide Upper, Split;
    var tokens, u := Split(Upper(rest)), Upper(rest);
    JoinOfSplit(u);
    JoinConcat(tokens, ["FUT"]);
    JoinOfTwo(u, "FUT");
    assert u + "-" + "FUT" == u + "-FUT";
    SplitOfJoin(tokens + ["FUT"]);
  }

  lemma JoinOfTwo(a: string, b: string)
    ensures Join([a] + [b]) == a + "-" + b
  {
    assert ([a] + [b])[1..] == [b];
  }

  lemma {:induction false} DigitsReadBack(n: nat)
    ensures AllDigits(IntToString(n)) && |IntToString(n)| > 0 && Whole(IntToString(n)) == n
  {
    var d := ('0' as int + n % 10) as char;
    if n < 10 {
      assert IntToString(n)[..0] == "";
      assert Whole("") == 0;
    } else {
      DigitsReadBack(n / 10);
      assert IntToString(n)[..|IntToString(n)| - 1] == IntToString(n / 10);
    }
  }

  /** Every whole strike is printed exactly. */
  lemma WholeStrikesPrintExactly(strike: real, formatG: real -> string)
    requires strike >= 0.0 && strike.Floor as real == strike
    ensures PrintsExactly(strike, formatG)
  {
    var s := IntToString(strike.Floor);
    DigitsReadBack(strike.Floor);
    assert Upper(s) == s;
    assert Trimmed(s) == s;
    assert Dot(s) == |s|;
    assert s[..|s|] == s;
  }

  /** Canonicalising twice is canonicalising once, for every accepted symbol whose strike is whole or absent. */
  lemma CanonicalIsIdempotent(s: string, formatG: real -> string)
    requires Parse(s).Some?
    requires var k := Parse(s).value.strike; k.Some? ==> k.value.Floor as real == k.value
    ensures var c := Canonical(Parse(s).value, formatG);
      Parse(c) == Parse(s) && Canonical(Parse(c).value, formatG) == c
  {
    hide Parse, Canonical, PrintsExactly;
    var p := Parse(s).value;
    ParseIsWellFormed(s);
    if p.strike.Some? {
      StrikeSign(p);
      WholeStrikesPrintExactly(p.strike.value, formatG);
    }
    ParsingInvertsPrinting(s, formatG);
  }

  lemma StrikeSign(p: Parsed)
    requires WellFormed(p) && p.strike.Some?
    ensures p.strike.value >= 0.0
  {
  }
}
