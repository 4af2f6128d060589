/** The symbol list read from `STOCK_SYMBOLS`: `[s.strip() for s in symbols_str.split(',')]`,
    shared by the script's `main` and the workflow task. */
module Symbols {
  import opened Wrappers

  /** The value used when the environment variable is unset. */
  const DefaultSymbols := "AAPL,GOOGL,MSFT"

  function CommaCount(s: string): nat {
    if |s| == 0 then 0 else (if s[0] == ',' then 1 else 0) + CommaCount(s[1..])
  }

  /** The inverse of `Split`: the pieces glued back with commas. */
  function Join(parts: seq<string>): string
    requires |parts| > 0
  {
    if |parts| == 1 then parts[0] else parts[0] + "," + Join(parts[1..])
  }

  /** `str.split(',')`: an empty string gives one empty piece, and so do two adjacent commas. */
  function Split(s: string): (parts: seq<string>)
    ensures |parts| == CommaCount(s) + 1
    ensures forall i | 0 <= i < |parts| :: ',' !in parts[i]
    ensures Join(parts) == s
  {
    if |s| == 0 then [""]
    else
      var rest := Split(s[1..]);
      if s[0] == ',' then
        var parts := [""] + rest;
        assert parts[1..] == rest;
        assert s == "," + s[1..];
        parts
      else
        var parts := [[s[0]] + rest[0]] + rest[1..];
        assert |rest| > 1 ==> parts[1..] == rest[1..] && Join(rest) == rest[0] + "," + Join(rest[1..]);
        assert s == [s[0]] + s[1..];
        parts
  }

  lemma SplitOfCommaFree(x: string)
    requires ',' !in x
    ensures Split(x) == [x]
  {
    if |x| > 0 {
      assert x[1..] == x[1..] && ',' !in x[1..] by {
        forall c | c in x[1..] ensures c != ',' { }
      }
      SplitOfCommaFree(x[1..]);
      assert [x[0]] + x[1..] == x;
    }
  }

  lemma {:induction false} SplitAtComma(x: string, y: string)
    requires ',' !in x
    ensures Split(x + "," + y) == [x] + Split(y)
    decreases |x|
  {
    var s := x + "," + y;
    if |x| == 0 {
      assert s == "," + y && s[1..] == y;
    } else {
      assert ',' !in x[1..] by {
        forall c | c in x[1..] ensures c != ',' { }
      }
      SplitAtComma(x[1..], y);
      assert s[1..] == x[1..] + "," + y && s[0] == x[0] != ',' by {
        assert s == [x[0]] + (x[1..] + "," + y);
      }
      var rest := Split(s[1..]);
      assert rest[0] == x[1..] && rest[1..] == Split(y);
      assert Split(s) == [[s[0]] + rest[0]] + rest[1..];
      assert [x[0]] + x[1..] == x;
    }
  }

  /** Round trip the other way: comma-free pieces joined and split again come back unchanged. */
  lemma {:induction false} SplitJoin(parts: seq<string>)
    requires |parts| > 0 && forall i | 0 <= i < |parts| :: ',' !in parts[i]
    ensures Split(Join(parts)) == parts
    decreases |parts|
  {
    if |parts| == 1 {
      SplitOfCommaFree(parts[0]);
    } else {
      SplitJoin(parts[1..]);
      SplitAtComma(parts[0], Join(parts[1..]));
      assert [parts[0]] + parts[1..] == parts;
    }
  }

  /** Python's `str.isspace()` for one character: the characters `str.strip()` removes. */
  predicate IsSpace(c: char) {
    || c == ' ' || c == '\t' || c == '\n' || c == '\r' || c == '\U{B}' || c == '\U{C}'
    || ('\U{1C}' <= c <= '\U{1F}') || c == '\U{85}' || c == '\U{A0}' || c == '\U{1680}'
    || ('\U{2000}' <= c <= '\U{200A}') || c == '\U{2028}' || c == '\U{2029}' || c == '\U{202F}'
    || c == '\U{205F}' || c == '\U{3000}'
  }

  predicate AllSpace(s: string) {
    forall i | 0 <= i < |s| :: IsSpace(s[i])
  }

  /** The length of the whitespace run that starts `s`. */
  function LeadingSpaces(s: string): (n: nat)
    ensures n <= |s| && AllSpace(s[..n])
    ensures n < |s| ==> !IsSpace(s[n])
  {
    if |s| > 0 && IsSpace(s[0]) then
      var m := LeadingSpaces(s[1..]);
      assert s[..m + 1] == [s[0]] + s[1..][..m];
      m + 1
    else 0
  }

  /** The length of the whitespace run that ends `s`. */
  function TrailingSpaces(s: string): (n: nat)
    ensures n <= |s| && AllSpace(s[|s| - n..])
    ensures n < |s| ==> !IsSpace(s[|s| - n - 1])
  {
    if |s| > 0 && IsSpace(s[|s| - 1]) then
      var m := TrailingSpaces(s[..|s| - 1]);
      SpaceRunGrows(s, m);
      m + 1
    else 0
  }

  /** A whitespace run at the end of `s` minus its last character, followed by a whitespace
      last character, is one longer at the end of `s`. */
  lemma SpaceRunGrows(s: string, m: nat)
    requires 0 < |s| && IsSpace(s[|s| - 1]) && m <= |s| - 1
    requires AllSpace(s[..|s| - 1][|s| - 1 - m..])
    ensures AllSpace(s[|s| - (m + 1)..])
  {
    var init := s[..|s| - 1];
    forall i | |s| - (m + 1) <= i < |s| ensures IsSpace(s[i]) {
      if i < |s| - 1 { assert s[i] == init[|s| - 1 - m..][i - (|s| - 1 - m)]; }
    }
  }

  /** No whitespace at either end. */
  predicate Trimmed(s: string) {
    s == "" || (!IsSpace(s[0]) && !IsSpace(s[|s| - 1]))
  }

  /** `str.strip()`: the middle of `s` between its leading and its trailing whitespace runs. */
  function Strip(s: string): (r: string)
    ensures Trimmed(r)
    ensures r == "" <==> AllSpace(s)
    ensures var i := LeadingSpaces(s);
            && i + |r| <= |s| && s[i..i + |r|] == r
            && AllSpace(s[..i]) && AllSpace(s[i + |r|..])
  {
    var i := LeadingSpaces(s);
    if i == |s| then
      assert s[..i] == s;
      ""
    else
      var j := |s| - TrailingSpaces(s);
      assert i < j;
      assert !IsSpace(s[i]);
      s[i..j]
  }

  /** A piece with no whitespace at either end is left as it is. */
  lemma StripOfTrimmed(s: string)
    requires s != "" && Trimmed(s)
    ensures Strip(s) == s
  {
    assert LeadingSpaces(s) == 0;
    assert TrailingSpaces(s) == 0;
  }

  /** Stripping twice strips nothing more. */
  lemma StripIdempotent(s: string)
    ensures Strip(Strip(s)) == Strip(s)
  {
    var r := Strip(s);
    if r != "" {
      assert LeadingSpaces(r) == 0;
      assert TrailingSpaces(r) == 0;
    }
  }

  lemma StripKeepsCommaFree(s: string)
    requires ',' !in s
    ensures ',' !in Strip(s)
  {
    var r := Strip(s);
    var i := LeadingSpaces(s);
    forall m | 0 <= m < |r| ensures r[m] != ',' {
      assert r[m] == s[i + m];
    }
  }

  /** `[s.strip() for s in symbols_str.split(',')]`. */
  function ParseSymbols(text: string): (symbols: seq<string>)
    ensures |symbols| == CommaCount(text) + 1
    ensures forall i | 0 <= i < |symbols| :: symbols[i] == Strip(Split(text)[i])
    ensures forall i | 0 <= i < |symbols| :: ',' !in symbols[i]
    ensures forall i | 0 <= i < |symbols| :: Trimmed(symbols[i])
  {
    var parts := Split(text);
    var symbols := seq(|parts|, k requires 0 <= k < |parts| => Strip(parts[k]));
    assert forall k | 0 <= k < |parts| :: symbols[k] == Strip(parts[k]) && Trimmed(symbols[k]);
    assert forall k | 0 <= k < |parts| :: ',' !in symbols[k] by {
      forall k | 0 <= k < |parts| ensures ',' !in symbols[k] {
        StripKeepsCommaFree(parts[k]);
      }
    }
    symbols
  }

  /** The symbols of a run: the variable's value when it is set (even to ""), the default otherwise. */
  function SymbolList(symbolsVar: Option<string>): seq<string> {
    ParseSymbols(symbolsVar.GetOr(DefaultSymbols))
  }

  /** Pieces that are comma-free and already stripped come back from `ParseSymbols` of their join. */
  lemma ParseJoin(parts: seq<string>)
    requires |parts| > 0
    requires forall i | 0 <= i < |parts| :: ',' !in parts[i] && parts[i] != "" && Trimmed(parts[i])
    ensures ParseSymbols(Join(parts)) == parts
  {
    SplitJoin(parts);
    forall i | 0 <= i < |parts| ensures Strip(parts[i]) == parts[i] {
      StripOfTrimmed(parts[i]);
    }
  }

  lemma DefaultList()
    ensures SymbolList(None) == ["AAPL", "GOOGL", "MSFT"]
  {
    var parts := ["AAPL", "GOOGL", "MSFT"];
    assert parts[1..] == ["GOOGL", "MSFT"] && parts[1..][1..] == ["MSFT"];
    assert Join(["GOOGL", "MSFT"]) == "GOOGL" + "," + "MSFT";
    assert Join(parts) == DefaultSymbols;
    ParseJoin(parts);
  }
}
