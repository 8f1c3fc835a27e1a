/** General text helpers (src/utils/text.js). */
module TextUtils {
  import opened Wrappers
  import opened Strings
  import opened Seqs

  const TruncationMarker: string := "\n\n... (truncado)"

  /** `truncate(text, maxLen)`; `None` stands for a value that is not a string. */
  function Truncate(text: Option<string>, maxLen: nat): (r: string)
    ensures text.None? ==> r == ""
    ensures text.Some? && |text.value| <= maxLen ==> r == text.value
    ensures text.Some? && |text.value| > maxLen ==>
      r == text.value[..maxLen] + TruncationMarker && |r| == maxLen + |TruncationMarker|
  {
    if text.None? then ""
    else if |text.value| <= maxLen then text.value
    else text.value[..maxLen] + TruncationMarker
  }

  /** Truncation keeps a prefix of the text and never grows it by more than the marker. */
  lemma TruncateIsPrefix(text: string, maxLen: nat)
    ensures var r := Truncate(Some(text), maxLen);
      |r| <= maxLen + |TruncationMarker|
      && (|r| <= maxLen ==> r == text)
      && StartsWith(r, text[..if |text| < maxLen then |text| else maxLen])
  {
  }

  /** The trimmed, non-empty items of a list of pieces, in order. */
  function TrimmedNonEmpty(parts: seq<string>): (r: seq<string>)
    ensures |r| <= |parts|
    ensures forall i :: 0 <= i < |r| ==> Tidy(r[i])
  {
    if parts == [] then []
    else
      var t := Trim(parts[0]);
      var rest := TrimmedNonEmpty(parts[1..]);
      if t == [] then rest
      else
        TrimIdempotent(parts[0]);
        AllCons(Tidy, t, rest);
        [t] + rest
  }

  /** `parseCsvList`: the comma-separated items, trimmed, empty ones dropped. */
  function ParseCsvList(value: string): (r: seq<string>)
    ensures forall i :: 0 <= i < |r| ==> r[i] != [] && Trim(r[i]) == r[i] && ',' !in r[i]
    ensures value == [] ==> r == []
  {
    var parts := Split(value, ',');
    CommaFreeItems(parts);
    TrimmedNonEmpty(parts)
  }

  lemma TrimHasNoNewChars(s: string, c: char)
    requires c !in s
    ensures c !in Trim(s)
  {
    var k :| OccursAt(s, Trim(s), k);
    forall j | 0 <= j < |Trim(s)| ensures Trim(s)[j] != c {
      assert Trim(s)[j] == s[k + j];
    }
  }

  lemma {:induction false} CommaFreeItems(parts: seq<string>)
    requires forall i :: 0 <= i < |parts| ==> ',' !in parts[i]
    ensures forall i :: 0 <= i < |TrimmedNonEmpty(parts)| ==> ',' !in TrimmedNonEmpty(parts)[i]
  {
    if parts != [] {
      CommaFreeItems(parts[1..]);
      TrimHasNoNewChars(parts[0], ',');
    }
  }

  /** The value `parseBool` receives: null/undefined, a boolean, or anything
      else by its `String(...)` rendering. */
  datatype BoolInput = Missing | Bool(b: bool) | Text(s: string)

  /** The words `parseBool` reads as true. */
  predicate IsTrueWord(w: string)
  {
    w == "1" || w == "true" || w == "yes" || w == "y" || w == "on"
  }

  /** The words `parseBool` reads as false. */
  predicate IsFalseWord(w: string)
  {
    w == "0" || w == "false" || w == "no" || w == "n" || w == "off"
  }

  /** The word `parseBool` compares: the trimmed, lower-cased text. */
  function BoolWord(s: string): string { Lower(Trim(s)) }

  /** `parseBool(value, defaultValue)`. */
  function ParseBool(value: BoolInput, defaultValue: bool): (r: bool)
    ensures value.Missing? || value == Text("") ==> r == defaultValue
    ensures value.Bool? ==> r == value.b
    ensures value.Text? && value.s != "" && IsTrueWord(BoolWord(value.s)) ==> r
    ensures value.Text? && value.s != "" && IsFalseWord(BoolWord(value.s)) ==> !r
    ensures value.Text? && !IsTrueWord(BoolWord(value.s)) && !IsFalseWord(BoolWord(value.s)) ==> r == defaultValue
  {
    match value
    case Missing => defaultValue
    case Bool(b) => b
    case Text(s) =>
      var w := BoolWord(s);
      if s == "" then defaultValue
      else if IsTrueWord(w) then BoolWordsDisjoint(w); true
      else if IsFalseWord(w) then false
      else defaultValue
  }

  /** No word is both true and false, so every recognised word has one meaning. */
  lemma BoolWordsDisjoint(w: string)
    ensures !(IsTrueWord(w) && IsFalseWord(w))
  {
  }

  /** Trimmed, non-empty items pass the trim-and-drop step unchanged. */
  lemma {:induction false} TidyItemsKept(xs: seq<string>)
    requires forall i :: 0 <= i < |xs| ==> Tidy(xs[i])
    ensures TrimmedNonEmpty(xs) == xs
  {
    if xs != [] {
      TidyItemsKept(xs[1..]);
      assert Trim(xs[0]) == xs[0] != [];
      assert TrimmedNonEmpty(xs) == [xs[0]] + TrimmedNonEmpty(xs[1..]);
      HeadTail(xs);
    }
  }

  /** The trim-and-drop step works piece by piece, keeping the order. */
  lemma {:induction false} TrimmedNonEmptyAppend(a: seq<string>, b: seq<string>)
    ensures TrimmedNonEmpty(a + b) == TrimmedNonEmpty(a) + TrimmedNonEmpty(b)
  {
    if a == [] {
      assert a + b == b;
    } else {
      var ab := a + b;
      assert ab[0] == a[0] && ab[1..] == a[1..] + b;
      TrimmedNonEmptyAppend(a[1..], b);
      var t := Trim(a[0]);
      if t == [] {
        assert TrimmedNonEmpty(ab) == TrimmedNonEmpty(ab[1..]);
        assert TrimmedNonEmpty(a) == TrimmedNonEmpty(a[1..]);
      } else {
        assert TrimmedNonEmpty(ab) == [t] + TrimmedNonEmpty(ab[1..]);
        assert TrimmedNonEmpty(a) == [t] + TrimmedNonEmpty(a[1..]);
        ConcatAssoc([t], TrimmedNonEmpty(a[1..]), TrimmedNonEmpty(b));
      }
    }
  }

  /** Writing a list of trimmed, comma-free items and parsing it back gives
      the list. */
  lemma CsvRoundTrip(xs: seq<string>)
    requires forall i :: 0 <= i < |xs| ==> Tidy(xs[i]) && ',' !in xs[i]
    ensures ParseCsvList(Join(xs, ",")) == xs
  {
    if xs != [] {
      SplitJoin(xs, ',');
      TidyItemsKept(xs);
    }
  }

  /** Two lists joined by a comma parse as the items of the first followed by
      the items of the second. */
  lemma CsvAppend(a: string, b: string)
    ensures ParseCsvList(a + "," + b) == ParseCsvList(a) + ParseCsvList(b)
  {
    SplitAppend(a, b, ',');
    TrimmedNonEmptyAppend(Split(a, ','), Split(b, ','));
  }

  /** A text without commas is one item, trimmed, or none when blank; with
      `CsvAppend` this determines every parse. */
  lemma CsvSingle(value: string)
    requires ',' !in value
    ensures ParseCsvList(value) == if Trim(value) == [] then [] else [Trim(value)]
  {
    SplitPoint(value, ',');
    assert Split(value, ',') == [value];
    assert Split(value, ',')[1..] == [];
  }

  /** Parsing the written form of a parsed list gives the same list. */
  lemma CsvIdempotent(value: string)
    ensures ParseCsvList(Join(ParseCsvList(value), ",")) == ParseCsvList(value)
  {
    CsvRoundTrip(ParseCsvList(value));
  }
}
