/** The pure helpers of the desktop agent process (src/runners/desktop-agent-run.js):
    its command-line reader, the reader of tesseract's TSV output, the OCR
    lookup, the shell allow-list and text truncation. */
module DesktopAgentRun {
  import opened Wrappers
  import opened Strings
  import opened Seqs
  import opened Numbers

  /** The options of the agent process. */
  datatype AgentArgs = AgentArgs(prompt: string, cwd: string, artifacts: string)

  /** The options read from `argv[i..]` on top of `out`: each recognised flag
      takes the next element (a missing or empty one gives the default) and
      skips it; other elements are ignored. */
  function ArgsFrom(argv: seq<string>, i: nat, out: AgentArgs, processCwd: string): AgentArgs
    decreases |argv| - i
  {
    if i >= |argv| then out
    else
      var next := if i + 1 < |argv| then argv[i + 1] else "";
      if argv[i] == "--prompt" then ArgsFrom(argv, i + 2, out.(prompt := next), processCwd)
      else if argv[i] == "--cwd" then
        ArgsFrom(argv, i + 2, out.(cwd := if next != "" then next else processCwd), processCwd)
      else if argv[i] == "--artifacts" then ArgsFrom(argv, i + 2, out.(artifacts := next), processCwd)
      else ArgsFrom(argv, i + 1, out, processCwd)
  }

  /** What `parseArgs` returns; the first two elements of `argv` are the node
      executable and the script, and the working directory is a parameter. */
  function Args(argv: seq<string>, processCwd: string): AgentArgs
  {
    ArgsFrom(argv, 2, AgentArgs("", processCwd, ""), processCwd)
  }

  /** `parseArgs`. */
  method ParseArgs(argv: seq<string>, processCwd: string) returns (out: AgentArgs)
    ensures out == Args(argv, processCwd)
  {
    out := AgentArgs("", processCwd, "");
    var i := 2;
    while i < |argv|
      invariant i >= 2
      invariant ArgsFrom(argv, i, out, processCwd) == Args(argv, processCwd)
      decreases |argv| - i
    {
      var a := argv[i];
      var next := if i + 1 < |argv| then argv[i + 1] else "";
      if a == "--prompt" {
        out := out.(prompt := next);
        i := i + 2;
      } else if a == "--cwd" {
        out := out.(cwd := if next != "" then next else processCwd);
        i := i + 2;
      } else if a == "--artifacts" {
        out := out.(artifacts := next);
        i := i + 2;
      } else {
        i := i + 1;
      }
    }
  }

  /** Every option is its default or the element right after one of its flags. */
  lemma {:induction false} ArgsFromProvenance(argv: seq<string>, i: nat, out: AgentArgs, processCwd: string)
    ensures var r := ArgsFrom(argv, i, out, processCwd);
      (r.prompt == out.prompt || r.prompt == ""
       || exists k :: i <= k < |argv| - 1 && argv[k] == "--prompt" && argv[k + 1] == r.prompt)
      && (r.cwd == out.cwd || r.cwd == processCwd
          || exists k :: i <= k < |argv| - 1 && argv[k] == "--cwd" && argv[k + 1] == r.cwd)
      && (r.artifacts == out.artifacts || r.artifacts == ""
          || exists k :: i <= k < |argv| - 1 && argv[k] == "--artifacts" && argv[k + 1] == r.artifacts)
    decreases |argv| - i
  {
    if i < |argv| {
      var next := if i + 1 < |argv| then argv[i + 1] else "";
      if argv[i] == "--prompt" {
        ArgsFromProvenance(argv, i + 2, out.(prompt := next), processCwd);
      } else if argv[i] == "--cwd" {
        ArgsFromProvenance(argv, i + 2, out.(cwd := if next != "" then next else processCwd), processCwd);
      } else if argv[i] == "--artifacts" {
        ArgsFromProvenance(argv, i + 2, out.(artifacts := next), processCwd);
      } else {
        ArgsFromProvenance(argv, i + 1, out, processCwd);
      }
    }
  }

  /** The defaults are '' for prompt and artifacts and the process directory
      for cwd; any other value was given right after its flag. */
  lemma ArgsDefaults(argv: seq<string>, processCwd: string)
    ensures var r := Args(argv, processCwd);
      (r.prompt == "" || exists k :: 2 <= k < |argv| - 1 && argv[k] == "--prompt" && argv[k + 1] == r.prompt)
      && (r.cwd == processCwd || exists k :: 2 <= k < |argv| - 1 && argv[k] == "--cwd" && argv[k + 1] == r.cwd)
      && (r.artifacts == "" || exists k :: 2 <= k < |argv| - 1 && argv[k] == "--artifacts" && argv[k + 1] == r.artifacts)
  {
    ArgsFromProvenance(argv, 2, AgentArgs("", processCwd, ""), processCwd);
  }

  /** A later flag overrides an earlier one, a flag takes the next element even
      when it is another flag, and unknown elements are skipped. */
  lemma ArgsExamples(cwd: string)
    ensures Args(["node", "run.js", "--prompt", "a", "--prompt", "b"], cwd).prompt == "b"
    ensures Args(["node", "run.js", "--prompt", "--cwd", "/w"], cwd) == AgentArgs("--cwd", cwd, "")
    ensures Args(["node", "run.js", "-x", "--artifacts", "/out"], cwd) == AgentArgs("", cwd, "/out")
    ensures Args(["node", "run.js", "--cwd", ""], cwd).cwd == cwd
  {
  }

  // ----- tesseract TSV -----

  /** A word box of tesseract's TSV output. Confidence is None when the column
      is not a number. */
  datatype OcrBox = OcrBox(text: string, conf: Option<real>, left: int, top: int, width: int, height: int)

  function Pow10(k: nat): (p: nat)
    ensures p >= 1
  {
    if k == 0 then 1 else 10 * Pow10(k - 1)
  }

  /** `parseFloat(s)` when finite: white space, an optional sign, digits with
      an optional fractional part; None (NaN) when there is no digit. */
  function ParseFloatPrefix(s: string): (r: Option<real>)
  {
    var (sign, body) := SignOf(TrimStart(s));
    var n := DigitRun(body);
    var whole := DecimalValue(body[..n]) as real;
    if n < |body| && body[n] == '.' then
      var frac := body[n + 1..];
      var m := DigitRun(frac);
      if n == 0 && m == 0 then None
      else Some(sign as real * (whole + DecimalValue(frac[..m]) as real / Pow10(m) as real))
    else if n == 0 then None
    else Some(sign as real * whole)
  }

  /** The non-empty strings of a list, in order (`filter(Boolean)`). */
  function NonEmpty(parts: seq<string>): (r: seq<string>)
    ensures |r| <= |parts|
    ensures forall i :: 0 <= i < |r| ==> r[i] != []
    ensures forall p :: p in r <==> p in parts && p != []
  {
    if parts == [] then []
    else (if parts[0] != [] then [parts[0]] else []) + NonEmpty(parts[1..])
  }

  /** The box a data row describes, if any. */
  function RowBox(line: string): Option<OcrBox>
  {
    var cols := Split(line, '\t');
    if |cols| < 12 then None
    else
      var left := ParseIntPrefix(cols[6]);
      var top := ParseIntPrefix(cols[7]);
      var width := ParseIntPrefix(cols[8]);
      var height := ParseIntPrefix(cols[9]);
      var text := Trim(cols[11]);
      if text == [] then None
      else if left.None? || top.None? || width.None? || height.None? then None
      else Some(OcrBox(text, ParseFloatPrefix(cols[10]), left.value, top.value, width.value, height.value))
  }

  /** A data row describes a box exactly when it has at least 12 tab-separated
      columns, a non-blank text in column 11 and integer box fields in columns
      6 to 9; the box holds those fields. */
  lemma RowBoxFields(line: string)
    ensures var r := RowBox(line);
            var cols := Split(line, '\t');
            (r.Some? ==>
              |cols| >= 12 && r.value.text == Trim(cols[11]) && r.value.text != []
              && ParseIntPrefix(cols[6]) == Some(r.value.left) && ParseIntPrefix(cols[7]) == Some(r.value.top)
              && ParseIntPrefix(cols[8]) == Some(r.value.width) && ParseIntPrefix(cols[9]) == Some(r.value.height)
              && r.value.conf == ParseFloatPrefix(cols[10]))
            && (r.None? <==>
              |cols| < 12 || Trim(cols[11]) == []
              || ParseIntPrefix(cols[6]).None? || ParseIntPrefix(cols[7]).None?
              || ParseIntPrefix(cols[8]).None? || ParseIntPrefix(cols[9]).None?)
  {
  }

  /** The boxes of a list of data rows, in row order. */
  function BoxesOf(rows: seq<string>): (r: seq<OcrBox>)
    ensures |r| <= |rows|
  {
    FilterMap(RowBox, rows)
  }

  /** Exactly the boxes of the rows that describe one are listed. */
  lemma BoxesOfMembers(rows: seq<string>)
    ensures forall b :: b in BoxesOf(rows) <==> exists i :: 0 <= i < |rows| && RowBox(rows[i]) == Some(b)
  {
    FilterMapMembers(RowBox, rows);
  }

  /** The non-empty lines of the TSV text; the first is the header. */
  function TsvLines(tsv: string): seq<string>
  {
    NonEmpty(Split(tsv, '\n'))
  }

  /** What `parseTesseractTsv` returns. */
  function TsvBoxes(tsv: string): (r: seq<OcrBox>)
    ensures |TsvLines(tsv)| <= 1 ==> r == []
    ensures forall b :: b in r ==> Tidy(b.text)
  {
    var lines := TsvLines(tsv);
    if |lines| <= 1 then []
    else
      var r := BoxesOf(lines[1..]);
      BoxesOfMembers(lines[1..]);
      forall b | b in r ensures Tidy(b.text) {
        var i :| 0 <= i < |lines[1..]| && RowBox(lines[1..][i]) == Some(b);
        RowBoxFields(lines[1..][i]);
        TrimIdempotent(Split(lines[1..][i], '\t')[11]);
      }
      r
  }

  /** `parseTesseractTsv`. */
  method ParseTesseractTsv(tsv: string) returns (out: seq<OcrBox>)
    ensures out == TsvBoxes(tsv)
  {
    var lines := NonEmpty(Split(tsv, '\n'));
    if |lines| <= 1 {
      return [];
    }
    out := [];
    var i := 1;
    while i < |lines|
      invariant 1 <= i <= |lines|
      invariant out == BoxesOf(lines[1..i])
    {
      assert lines[1..i + 1] == lines[1..i] + [lines[i]];
      FilterMapSnoc(RowBox, lines[1..i], lines[i]);
      var box := RowBox(lines[i]);
      if box.Some? {
        out := out + [box.value];
      }
      i := i + 1;
    }
    assert lines[1..|lines|] == lines[1..];
  }

  /** The boxes are those of the data rows, the lines after the header. */
  lemma TsvBoxesFromDataRows(tsv: string)
    requires |TsvLines(tsv)| >= 1
    ensures forall b :: b in TsvBoxes(tsv) <==>
              exists i :: 0 <= i < |TsvLines(tsv)[1..]| && RowBox(TsvLines(tsv)[1..][i]) == Some(b)
  {
    BoxesOfMembers(TsvLines(tsv)[1..]);
  }

  // ----- OCR lookup -----

  /** The index of the first box whose lower-cased text is `q`. */
  function FirstExact(boxes: seq<OcrBox>, q: string): (r: Option<nat>)
    ensures r.Some? ==> r.value < |boxes| && Lower(boxes[r.value].text) == q
                        && forall j :: 0 <= j < r.value ==> Lower(boxes[j].text) != q
    ensures r.None? ==> forall j :: 0 <= j < |boxes| ==> Lower(boxes[j].text) != q
  {
    if boxes == [] then None
    else if Lower(boxes[0].text) == q then Some(0)
    else
      var rest := FirstExact(boxes[1..], q);
      if rest.Some? then Some(rest.value + 1) else None
  }

  /** The index of the first box whose lower-cased text contains `q`. */
  function FirstContaining(boxes: seq<OcrBox>, q: string): (r: Option<nat>)
    ensures r.Some? ==> r.value < |boxes| && Contains(Lower(boxes[r.value].text), q)
                        && forall j :: 0 <= j < r.value ==> !Contains(Lower(boxes[j].text), q)
    ensures r.None? ==> forall j :: 0 <= j < |boxes| ==> !Contains(Lower(boxes[j].text), q)
  {
    if boxes == [] then None
    else if Contains(Lower(boxes[0].text), q) then Some(0)
    else
      var rest := FirstContaining(boxes[1..], q);
      if rest.Some? then Some(rest.value + 1) else None
  }

  /** `findOcrHit`: the first box whose text equals the trimmed query ignoring
      case, else the first whose text contains it. */
  function FindOcrHit(boxes: seq<OcrBox>, query: string): (r: Option<OcrBox>)
    ensures Trim(query) == [] ==> r.None?
    ensures r.Some? ==> r.value in boxes && Contains(Lower(r.value.text), Lower(Trim(query)))
    ensures Trim(query) != [] && FirstExact(boxes, Lower(Trim(query))).Some?
            ==> r == Some(boxes[FirstExact(boxes, Lower(Trim(query))).value])
    ensures Trim(query) != [] && FirstExact(boxes, Lower(Trim(query))).None?
            ==> r == if FirstContaining(boxes, Lower(Trim(query))).Some?
                     then Some(boxes[FirstContaining(boxes, Lower(Trim(query))).value]) else None
  {
    var q := Lower(Trim(query));
    if q == [] then None
    else
      var exact := FirstExact(boxes, q);
      if exact.Some? then
        SelfContains(q);
        Some(boxes[exact.value])
      else
        var sub := FirstContaining(boxes, q);
        if sub.Some? then Some(boxes[sub.value]) else None
  }

  /** Every string contains itself. */
  lemma SelfContains(q: string)
    ensures Contains(q, q)
  {
    ContainsIff(q, q);
    assert OccursAt(q, q, 0);
  }

  /** The lookup finds nothing exactly when the query is blank or no box text
      contains it. */
  lemma FindOcrHitNone(boxes: seq<OcrBox>, query: string)
    ensures FindOcrHit(boxes, query).None? <==>
              Trim(query) == [] || forall b :: b in boxes ==> !Contains(Lower(b.text), Lower(Trim(query)))
  {
    var q := Lower(Trim(query));
    if Trim(query) != [] && FindOcrHit(boxes, query).None? {
      assert FirstExact(boxes, q).None?;
      forall b | b in boxes ensures !Contains(Lower(b.text), q) {
        var j :| 0 <= j < |boxes| && boxes[j] == b;
      }
    }
  }

  // ----- shell guard and truncation -----

  /** The commands the agent may run through its shell tool. */
  const ShellAllowList: seq<string> := ["rg", "jq", "curl", "python", "python3", "node", "open", "osascript"]

  /** Fragments that make a shell command refused whatever its program. */
  const ShellDenyList: seq<string> := ["rm -rf", "sudo", "shutdown", "reboot"]

  /** The first white-space separated token of a trimmed command. */
  function FirstToken(s: string): (w: string)
    ensures StartsWith(s, w)
    ensures forall i :: 0 <= i < |w| ==> !IsSpace(w[i])
  {
    s[..NonSpaceRun(s)]
  }

  lemma DenyListItems()
    ensures forall d :: d in ShellDenyList <==> d == "rm -rf" || d == "sudo" || d == "shutdown" || d == "reboot"
  {
  }

  /** `safeShellAllowed`. */
  function SafeShellAllowed(cmd: string): (ok: bool)
    ensures ok ==> !IsBlank(cmd)
    ensures ok ==> forall d :: d in ShellDenyList ==> !Contains(Trim(cmd), d)
    ensures ok ==> FirstToken(Trim(cmd)) in ShellAllowList
    ensures (!IsBlank(cmd) && (forall d :: d in ShellDenyList ==> !Contains(Trim(cmd), d))
             && FirstToken(Trim(cmd)) in ShellAllowList) ==> ok
  {
    var s := Trim(cmd);
    if s == [] then false
    else if HasDeniedFragment(s) then false
    else FirstToken(s) in ShellAllowList
  }

  /** Whether the command holds any fragment of the deny list. */
  function HasDeniedFragment(s: string): (r: bool)
    ensures r <==> exists d :: d in ShellDenyList && Contains(s, d)
  {
    DenyListItems();
    Contains(s, "rm -rf") || Contains(s, "sudo") || Contains(s, "shutdown") || Contains(s, "reboot")
  }

  /** Leading white space does not change the verdict. */
  lemma SafeShellIgnoresLeadingSpace(cmd: string)
    ensures SafeShellAllowed(" " + cmd) == SafeShellAllowed(cmd)
  {
    assert (" " + cmd)[1..] == cmd;
    assert TrimStart(" " + cmd) == TrimStart(cmd);
  }

  /** `truncate(s, n)`: strings longer than `n` keep their first `n`
      characters followed by "...". */
  function Truncate(s: string, n: nat): (r: string)
    ensures |s| <= n ==> r == s
    ensures |s| > n ==> |r| == n + 3 && r[..n] == s[..n] && r[n..] == "..."
  {
    if |s| <= n then s else s[..n] + "..."
  }
}
