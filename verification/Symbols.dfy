/** Canonical symbols (trading/brokers/symbols.py): parsing and printing over ASCII text. */
module Symbols {
  import opened Numbers
  import opened Types

  datatype OptionType = CE | PE

  datatype Parsed = Parsed(
    exchange: Exchange, underlying: string, kind: Kind, expiry: Option<string>, strike: Option<real>, option: Option<OptionType>)

  /** None is the SymbolError. */
  type Result = Option<Parsed>

  // ---------------------------------------------------------------- text

  function UpperChar(c: char): char {
    if 'a' <= c <= 'z' then (c as int - 32) as char else c
  }

  function Upper(s: string): (r: string)
    ensures |r| == |s| && forall i :: 0 <= i < |s| ==> r[i] == UpperChar(s[i])
  {
    seq(|s|, i requires 0 <= i < |s| => UpperChar(s[i]))
  }

  /** `str.split("-")` */
  function Split(s: string): (tokens: seq<string>)
    ensures |tokens| >= 1
  {
    if |s| == 0 then [""]
    else
      var rest := Split(s[1..]);
      if s[0] == '-' then [""] + rest else [[s[0]] + rest[0]] + rest[1..]
  }

  /** `"-".join(tokens)` */
  function Join(tokens: seq<string>): string {
    if |tokens| == 0 then "" else if |tokens| == 1 then tokens[0] else tokens[0] + "-" + Join(tokens[1..])
  }

  predicate Digit(c: char) { '0' <= c <= '9' }

  predicate AllDigits(s: string) {
    forall i :: 0 <= i < |s| ==> Digit(s[i])
  }

  function Months(): set<string> {
    {"JAN", "FEB", "MAR", "APR", "MAY", "JUN", "JUL", "AUG", "SEP", "OCT", "NOV", "DEC"}
  }

  /** A regular expression's `$` also matches before one final newline. */
  function Trimmed(s: string): string {
    if |s| > 0 && s[|s| - 1] == '\n' then s[..|s| - 1] else s
  }

  /** `_EXPIRY_RE`: up to two digits, a month, two digits. */
  predicate ExpiryToken(s: string) {
    var t := Trimmed(s);
    && 5 <= |t| <= 7
    && t[|t| - 5..|t| - 2] in Months()
    && AllDigits(t[|t| - 2..])
    && AllDigits(t[..|t| - 5])
  }

  function Dot(s: string): (i: nat)
    ensures i <= |s| && (i < |s| ==> s[i] == '.') && forall j :: 0 <= j < i ==> s[j] != '.'
  {
    if |s| == 0 || s[0] == '.' then 0 else 1 + Dot(s[1..])
  }

  /** `_STRIKE_RE`: digits, and perhaps a point and digits. */
  predicate StrikeToken(s: string) {
    var t := Trimmed(s);
    var i := Dot(t);
    && i > 0
    && AllDigits(t[..i])
    && (i < |t| ==> i + 1 < |t| && AllDigits(t[i + 1..]))
  }

  function DigitValue(c: char): int { c as int - '0' as int }

  function Whole(s: string): int {
    if |s| == 0 then 0 else 10 * Whole(s[..|s| - 1]) + DigitValue(s[|s| - 1])
  }

  function Power10(n: nat): (p: nat)
    ensures p > 0
  {
    if n == 0 then 1 else 10 * Power10(n - 1)
  }

  /** `float(token)`, exactly. */
  function StrikeValue(s: string): real
    requires StrikeToken(s)
  {
    var t := Trimmed(s);
    var i := Dot(t);
    if i == |t| then Whole(t) as real
    else Whole(t[..i]) as real + Whole(t[i + 1..]) as real / Power10(|t| - i - 1) as real
  }

  predicate UnderlyingChar(c: char) {
    'A' <= c <= 'Z' || Digit(c) || c == '&' || c == '_' || c == '-'
  }

  /** `_UNDERLYING_RE` */
  predicate UnderlyingText(s: string) {
    var t := Trimmed(s);
    |t| > 0 && forall i :: 0 <= i < |t| ==> UnderlyingChar(t[i])
  }

  function IndexNames(): set<string> {
    {"NIFTY", "NIFTY50", "BANKNIFTY", "FINNIFTY", "MIDCPNIFTY", "NIFTYNXT50", "INDIAVIX", "SENSEX", "BANKEX"}
  }

  // ---------------------------------------------------------------- parse_symbol

  function ExchangeOf(s: string): Option<Exchange> {
    if s == "NSE" then Some(NSE) else if s == "NFO" then Some(NFO) else if s == "MCX" then Some(MCX) else None
  }

  function ExchangeName(e: Exchange): string {
    match e case NSE => "NSE" case NFO => "NFO" case MCX => "MCX"
  }

  function OptionName(o: OptionType): string {
    match o case CE => "CE" case PE => "PE"
  }

  function Colon(s: string): (i: nat)
    ensures i <= |s| && (i < |s| ==> s[i] == ':') && forall j :: 0 <= j < i ==> s[j] != ':'
  {
    if |s| == 0 || s[0] == ':' then 0 else 1 + Colon(s[1..])
  }

  /** The checks every kind of symbol ends with. */
  function Accept(p: Parsed): Result {
    if p.underlying == "" || !UnderlyingText(p.underlying) then None
    else if p.exchange.NSE? && (p.kind.Future? || p.kind.Opt?) then None
    else Some(p)
  }

  /** The tokens after an explicit FUT suffix has been dealt with. */
  function ParseTokens(e: Exchange, tokens: seq<string>): Result
    requires |tokens| >= 1
  {
    var n := |tokens|;
    if n >= 4 && tokens[n - 1] in {"CE", "PE"} then
      if !StrikeToken(tokens[n - 2]) || !ExpiryToken(tokens[n - 3]) then None
      else Accept(Parsed(e, Join(tokens[..n - 3]), Opt, Some(tokens[n - 3]), Some(StrikeValue(tokens[n - 2])),
                         Some(if tokens[n - 1] == "CE" then CE else PE)))
    else if n >= 2 && ExpiryToken(tokens[n - 1]) then
      Accept(Parsed(e, Join(tokens[..n - 1]), Future, Some(tokens[n - 1]), None, None))
    else
      var underlying := Join(tokens);
      if !e.NSE? then None
      else Accept(Parsed(e, underlying, if underlying in IndexNames() || '_' in underlying then Index else Equity, None, None, None))
  }

  function ParseRest(e: Exchange, tokens: seq<string>): Result
    requires |tokens| >= 1
  {
    var n := |tokens|;
    if tokens[n - 1] == "FUT" then
      if n - 1 < 2 || !ExpiryToken(tokens[n - 2]) then None else ParseTokens(e, tokens[..n - 1])
    else ParseTokens(e, tokens)
  }

  function Parse(s: string): Result {
    var i := Colon(s);
    if i == |s| then None
    else
      var e := ExchangeOf(Upper(s[..i]));
      if e.None? then None else ParseRest(e.value, Split(Upper(s[i + 1..])))
  }

  // ---------------------------------------------------------------- make_symbol

  function IntToString(n: nat): string {
    if n < 10 then [('0' as int + n) as char] else IntToString(n / 10) + [('0' as int + n % 10) as char]
  }

  /** `_format_strike`; `formatG` is the `:g` format used for strikes that are not whole. */
  function FormatStrike(strike: real, formatG: real -> string): string {
    if strike.Floor as real != strike then formatG(strike)
    else if strike < 0.0 then "-" + IntToString(-strike.Floor)
    else IntToString(strike.Floor)
  }

  /** The parts `make_symbol` joins; a strike without an option type is an error there. */
  function Parts(p: Parsed, formatG: real -> string): seq<string> {
    [Upper(p.underlying)]
    + (if p.expiry.Some? && p.expiry.value != "" then [Upper(p.expiry.value)] else [])
    + (if p.strike.Some? && p.option.Some? then [FormatStrike(p.strike.value, formatG), OptionName(p.option.value)] else [])
  }

  /** `canonical` */
  function Canonical(p: Parsed, formatG: real -> string): string {
    ExchangeName(p.exchange) + ":" + Join(Parts(p, formatG))
  }

  /** A strike that is printed so that reading it back gives the same number. */
  predicate PrintsExactly(strike: real, formatG: real -> string) {
    var t := Upper(FormatStrike(strike, formatG));
    StrikeToken(t) && StrikeValue(t) == strike
  }

  // ---------------------------------------------------------------- splitting and joining

  lemma {:induction false} JoinOfSplit(s: string)
    ensures Join(Split(s)) == s
    ensures forall t :: t in Split(s) ==> '-' !in t
  {
    if |s| > 0 {
      JoinOfSplit(s[1..]);
      var rest := Split(s[1..]);
      if s[0] == '-' {
        assert ([""] + rest)[1..] == rest;
        assert s == "" + "-" + s[1..];
      } else {
        var tokens := [[s[0]] + rest[0]] + rest[1..];
        assert tokens[1..] == rest[1..];
        assert s == [s[0]] + s[1..];
        if |rest| > 1 {
          assert Join(tokens) == ([s[0]] + rest[0]) + "-" + Join(rest[1..]);
          assert Join(rest) == rest[0] + "-" + Join(rest[1..]);
          assert Join(tokens) == [s[0]] + Join(rest);
        }
        forall t | t in tokens ensures '-' !in t {
          assert t == tokens[0] || t in rest;
          assert '-' !in rest[0] by { assert rest[0] in rest; }
        }
      }
    }
  }

  lemma {:induction false} SplitOfToken(t: string, tail: string)
    requires '-' !in t
    ensures Split(t + "-" + tail) == [t] + Split(tail)
    ensures Split(t) == [t]
  {
    if |t| == 0 {
      assert t + "-" + tail == "-" + tail;
      assert ("-" + tail)[1..] == tail;
    } else {
      assert t[0] in t;
      SplitOfToken(t[1..], tail);
      var s := t + "-" + tail;
      assert s[1..] == t[1..] + "-" + tail;
      assert [t[0]] + t[1..] == t;
    }
  }

  lemma {:induction false} SplitOfJoin(tokens: seq<string>)
    requires |tokens| >= 1 && forall t :: t in tokens ==> '-' !in t
    ensures Split(Join(tokens)) == tokens
  {
    assert tokens[0] in tokens;
    if |tokens| == 1 {
      SplitOfToken(tokens[0], "");
      assert tokens == [tokens[0]];
    } else {
      SplitOfJoin(tokens[1..]);
      SplitOfToken(tokens[0], Join(tokens[1..]));
      assert tokens == [tokens[0]] + tokens[1..];
    }
  }

  lemma {:induction false} JoinConcat(a: seq<string>, c: seq<string>)
    requires |a| >= 1
    ensures Join([Join(a)] + c) == Join(a + c)
  {
    if |a| == 1 {
      assert [Join(a)] + c == a + c;
    } else if |c| == 0 {
      assert [Join(a)] + c == [Join(a)] && a + c == a;
    } else {
      JoinConcat(a[1..], c);
      assert (a + c)[1..] == a[1..] + c && (a + c)[0] == a[0];
      assert ([Join(a)] + c)[1..] == c && ([Join(a[1..])] + c)[1..] == c;
      assert Join([Join(a)] + c) == Join(a) + "-" + Join(c);
      assert Join([Join(a[1..])] + c) == Join(a[1..]) + "-" + Join(c);
      assert Join(a) == a[0] + "-" + Join(a[1..]);
      assert Join(a + c) == a[0] + "-" + Join(a[1..] + c);
    }
  }

  function UpperAll(tokens: seq<string>): (r: seq<string>)
    ensures |r| == |tokens| && forall i :: 0 <= i < |r| ==> r[i] == Upper(tokens[i])
  {
    seq(|tokens|, i requires 0 <= i < |tokens| => Upper(tokens[i]))
  }

  lemma UpperConcat(a: string, c: string)
    ensures Upper(a + c) == Upper(a) + Upper(c)
  {
  }

  lemma {:induction false} UpperJoin(tokens: seq<string>)
    ensures Upper(Join(tokens)) == Join(UpperAll(tokens))
  {
    if |tokens| > 1 {
      UpperJoin(tokens[1..]);
      UpperConcat(tokens[0] + "-", Join(tokens[1..]));
      UpperConcat(tokens[0], "-");
      assert UpperAll(tokens)[1..] == UpperAll(tokens[1..]);
      assert Upper("-") == "-";
    }
  }

  lemma UpperTwice(s: string)
    ensures Upper(Upper(s)) == Upper(s)
  {
  }

  /** Splitting an upper-cased text gives upper-case tokens without dashes. */
  lemma UpperTokens(s: string)
    ensures forall t :: t in Split(Upper(s)) ==> '-' !in t && Upper(t) == t
  {
    var u := Upper(s);
    JoinOfSplit(u);
    UpperJoin(Split(u));
    UpperTwice(s);
    var tokens := Split(u);
    forall t | t in UpperAll(tokens) ensures '-' !in t {
      var k :| 0 <= k < |tokens| && UpperAll(tokens)[k] == t;
      assert tokens[k] in tokens;
      UpperKeepsDashes(tokens[k]);
    }
    SplitOfJoin(UpperAll(tokens));
    forall t | t in tokens ensures Upper(t) == t {
      var k :| 0 <= k < |tokens| && tokens[k] == t;
      assert UpperAll(tokens)[k] == tokens[k];
    }
  }

  lemma UpperKeepsDashes(t: string)
    ensures '-' in Upper(t) <==> '-' in t
  {
    if '-' in t {
      var k :| 0 <= k < |t| && t[k] == '-';
      assert Upper(t)[k] == '-';
    }
    if '-' in Upper(t) {
      var k :| 0 <= k < |t| && Upper(t)[k] == '-';
      assert t[k] == '-';
    }
  }
}
