/** The chat splitter shared, line for line, by the WhatsApp adapter
    (src/services/whatsapp.js, `splitMessage`) and the Discord adapter
    (src/services/discord.js, `splitMessage`): a long text is cut into parts
    no longer than the limit, preferring a line break, then a space, in the
    last 70% of the window. */
module MessageSplit {
  import opened Strings

  /** Where a text longer than `maxLength` is cut: the last line break at or
      before `maxLength` when it lies at 30% of the window or later, else the
      last space by the same rule, else `maxLength`. `splitAt < maxLength * 0.3`
      is written `10 * splitAt < 3 * maxLength`. */
  function CutPoint(remaining: string, maxLength: nat): (cut: nat)
    requires 1 <= maxLength < |remaining|
    ensures 1 <= cut <= maxLength
    ensures cut == maxLength || remaining[cut] == '\n' || remaining[cut] == ' '
  {
    var nl := LastIndexAtOrBefore(remaining, "\n", maxLength);
    var at := if nl == -1 || 10 * nl < 3 * maxLength then LastIndexAtOrBefore(remaining, " ", maxLength) else nl;
    OccursCharAt(remaining, '\n', nl);
    OccursCharAt(remaining, ' ', at);
    if at == -1 || 10 * at < 3 * maxLength then maxLength else at
  }

  /** The parts the loop produces from `remaining` on. */
  function Pieces(remaining: string, maxLength: nat): (parts: seq<string>)
    requires maxLength >= 1
    decreases |remaining|
  {
    if |remaining| == 0 then []
    else if |remaining| <= maxLength then [remaining]
    else
      var cut := CutPoint(remaining, maxLength);
      [remaining[..cut]] + Pieces(TrimStart(remaining[cut..]), maxLength)
  }

  /** `splitMessage(text, maxLength)`: a text within the limit is one part. */
  function SplitSpec(text: string, maxLength: nat): (parts: seq<string>)
    requires maxLength >= 1
  {
    if |text| <= maxLength then [text] else Pieces(text, maxLength)
  }

  /** `parts` is what the loop cuts from `text`: each part is a prefix of the
      remaining text, and the next remaining text is what follows it with
      leading white space removed; nothing is left at the end. */
  predicate Reassembles(text: string, parts: seq<string>)
    decreases |parts|
  {
    if parts == [] then text == []
    else StartsWith(text, parts[0]) && Reassembles(TrimStart(text[|parts[0]|..]), parts[1..])
  }

  /** Every part is non-empty and within the limit. */
  lemma {:induction false} PiecesBounded(remaining: string, maxLength: nat)
    requires maxLength >= 1
    ensures forall i :: 0 <= i < |Pieces(remaining, maxLength)| ==>
              1 <= |Pieces(remaining, maxLength)[i]| <= maxLength
    decreases |remaining|
  {
    if |remaining| > maxLength {
      var cut := CutPoint(remaining, maxLength);
      PiecesBounded(TrimStart(remaining[cut..]), maxLength);
    }
  }

  /** The pieces are cut from the text in order, dropping only white space
      at the cuts. */
  lemma {:induction false} PiecesReassemble(remaining: string, maxLength: nat)
    requires maxLength >= 1
    ensures Reassembles(remaining, Pieces(remaining, maxLength))
    decreases |remaining|
  {
    if |remaining| > 0 {
      if |remaining| <= maxLength {
        assert remaining[|remaining|..] == [];
      } else {
        var cut := CutPoint(remaining, maxLength);
        var rest := TrimStart(remaining[cut..]);
        PiecesReassemble(rest, maxLength);
        var parts := Pieces(remaining, maxLength);
        assert parts[0] == remaining[..cut] && parts[1..] == Pieces(rest, maxLength);
      }
    }
  }

  /** The properties of `splitMessage`: a text within the limit comes back as
      the only part; a longer one is cut into non-empty parts within the limit
      that reassemble it. */
  lemma SplitSpecProperties(text: string, maxLength: nat)
    requires maxLength >= 1
    ensures |text| <= maxLength ==> SplitSpec(text, maxLength) == [text]
    ensures |text| > maxLength ==>
              Reassembles(text, SplitSpec(text, maxLength))
              && forall i :: 0 <= i < |SplitSpec(text, maxLength)| ==> 1 <= |SplitSpec(text, maxLength)[i]| <= maxLength
  {
    if |text| > maxLength {
      PiecesBounded(text, maxLength);
      PiecesReassemble(text, maxLength);
    }
  }

  /** One turn of the loop keeps `parts + Pieces(remaining)` unchanged: the
      cut-off prefix moves from the pieces still to come into `parts`. */
  lemma CutStep(parts: seq<string>, remaining: string, maxLength: nat)
    requires 1 <= maxLength < |remaining|
    ensures (parts + [remaining[..CutPoint(remaining, maxLength)]])
              + Pieces(TrimStart(remaining[CutPoint(remaining, maxLength)..]), maxLength)
            == parts + Pieces(remaining, maxLength)
  {
    var cut := CutPoint(remaining, maxLength);
    var rest := Pieces(TrimStart(remaining[cut..]), maxLength);
    assert Pieces(remaining, maxLength) == [remaining[..cut]] + rest;
    assert (parts + [remaining[..cut]]) + rest == parts + ([remaining[..cut]] + rest);
  }

  /** The last turn: a remainder within the limit is the last part. */
  lemma LastStep(parts: seq<string>, remaining: string, maxLength: nat)
    requires 0 < |remaining| <= maxLength
    ensures parts + [remaining] == parts + Pieces(remaining, maxLength)
  {
  }

  /** The splitting loop of `splitMessage`. */
  method SplitMessage(text: string, maxLength: nat) returns (parts: seq<string>)
    requires maxLength >= 1
    ensures parts == SplitSpec(text, maxLength)
  {
    if |text| <= maxLength {
      return [text];
    }
    ghost var whole := Pieces(text, maxLength);
    assert whole == SplitSpec(text, maxLength);
    parts := [];
    var remaining := text;
    while |remaining| > 0
      invariant parts + Pieces(remaining, maxLength) == whole
      decreases |remaining|
    {
      if |remaining| <= maxLength {
        LastStep(parts, remaining, maxLength);
        parts := parts + [remaining];
        break;
      }
      var cut := CutPoint(remaining, maxLength);
      CutStep(parts, remaining, maxLength);
      parts := parts + [remaining[..cut]];
      remaining := TrimStart(remaining[cut..]);
    }
    assert parts == whole by {
      if |remaining| == 0 {
        assert parts + Pieces(remaining, maxLength) == parts;
      }
    }
  }
}
