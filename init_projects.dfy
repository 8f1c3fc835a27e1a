/** The text logic of the first-run setup script (scripts/init-projects.js):
    phone normalisation, comma lists and the `.env` edits that register the
    allowed phone and the default project. Prompts, file access and starting
    the server are not part of this model; the `.env` text is an input and
    the edited text the output. */
module InitProjects {
  import opened Wrappers
  import opened Strings
  import TextUtils
  import Seqs

  // ---------------------------------------------------------------------
  // normalizePhone and parseCsv

  predicate AllDigits(s: string)
  {
    forall i :: 0 <= i < |s| ==> IsDigit(s[i])
  }

  lemma {:induction false} DigitsOnlyKeepsDigits(s: string)
    requires AllDigits(s)
    ensures DigitsOnly(s) == s
  {
    if s != [] {
      DigitsOnlyKeepsDigits(s[1..]);
    }
  }

  /** `normalizePhone(raw)`: only the digits, an error when there are none. */
  function NormalizePhone(raw: string): (r: Result<string, string>)
    ensures r.Failure? <==> DigitsOnly(raw) == []
    ensures r.Failure? ==> r.error == "Phone number is required"
    ensures r.Success? ==> r.value == DigitsOnly(raw) && r.value != [] && AllDigits(r.value)
  {
    var digits := DigitsOnly(raw);
    if digits == [] then Failure("Phone number is required") else Success(digits)
  }

  /** A normalised phone normalises to itself. */
  lemma NormalizePhoneIdempotent(raw: string)
    requires NormalizePhone(raw).Success?
    ensures NormalizePhone(NormalizePhone(raw).value) == NormalizePhone(raw)
  {
    DigitsOnlyKeepsDigits(DigitsOnly(raw));
  }

  /** `parseCsv(value)`: the same computation as `parseCsvList`. */
  function ParseCsv(value: string): (r: seq<string>)
    ensures forall i :: 0 <= i < |r| ==> Tidy(r[i]) && ',' !in r[i]
  {
    TextUtils.ParseCsvList(value)
  }

  // ---------------------------------------------------------------------
  // .env lines

  /** The line terminators of JavaScript regular expressions. */
  predicate IsLineBreak(c: char)
  {
    c == '\n' || c == '\r' || c == '\U{2028}' || c == '\U{2029}'
  }

  predicate NotLineBreak(c: char) { !IsLineBreak(c) }

  predicate NoLineBreak(s: string)
  {
    forall k :: 0 <= k < |s| ==> !IsLineBreak(s[k])
  }

  /** Every character of `s` satisfies `P`. */
  predicate AllChars(s: string, P: char -> bool)
  {
    forall k :: 0 <= k < |s| ==> P(s[k])
  }

  /** A slice keeps only characters of the text. */
  lemma AllCharsSlice(s: string, a: nat, b: nat, P: char -> bool)
    requires AllChars(s, P) && a <= b <= |s|
    ensures AllChars(s[a..b], P)
  {
    forall k | 0 <= k < b - a ensures P(s[a..b][k]) {
      assert s[a..b][k] == s[a + k];
    }
  }

  /** Trimming keeps only characters of the text. */
  lemma TrimChars(s: string, P: char -> bool)
    requires AllChars(s, P)
    ensures AllChars(Trim(s), P)
  {
    var r := Trim(s);
    var k :| OccursAt(s, r, k);
    forall i | 0 <= i < |r| ensures P(r[i]) {
      assert r[i] == s[k + i];
    }
  }

  /** The pieces of a split keep only characters of the text. */
  lemma {:induction false} SplitChars(s: string, c: char, P: char -> bool)
    requires AllChars(s, P)
    ensures forall i :: 0 <= i < |Split(s, c)| ==> AllChars(Split(s, c)[i], P)
    decreases |s|
  {
    var i := IndexOf(s, [c]);
    SplitPoint(s, c);
    if i >= 0 {
      AllCharsSlice(s, i + 1, |s|, P);
      assert s[i + 1..|s|] == s[i + 1..];
      SplitChars(s[i + 1..], c, P);
      AllCharsSlice(s, 0, i, P);
      assert s[0..i] == s[..i];
      assert Split(s, c) == [s[..i]] + Split(s[i + 1..], c);
      Seqs.AllCons((x: string) => AllChars(x, P), s[..i], Split(s[i + 1..], c));
    }
  }

  /** Trimming and dropping pieces keeps only characters of the pieces. */
  lemma {:induction false} TrimmedChars(parts: seq<string>, P: char -> bool)
    requires forall i :: 0 <= i < |parts| ==> AllChars(parts[i], P)
    ensures forall i :: 0 <= i < |TextUtils.TrimmedNonEmpty(parts)| ==> AllChars(TextUtils.TrimmedNonEmpty(parts)[i], P)
    decreases |parts|
  {
    if parts != [] {
      TrimmedChars(parts[1..], P);
      TrimChars(parts[0], P);
      if Trim(parts[0]) != [] {
        Seqs.AllCons((x: string) => AllChars(x, P), Trim(parts[0]), TextUtils.TrimmedNonEmpty(parts[1..]));
      }
    }
  }

  lemma NoLineBreakChars(s: string)
    ensures NoLineBreak(s) <==> AllChars(s, NotLineBreak)
  {
  }

  /** The items of a comma list keep only characters of the list. */
  lemma CsvChars(value: string, P: char -> bool)
    requires AllChars(value, P)
    ensures forall i :: 0 <= i < |ParseCsv(value)| ==> AllChars(ParseCsv(value)[i], P)
  {
    assert ParseCsv(value) == TextUtils.TrimmedNonEmpty(Split(value, ','));
    SplitChars(value, ',', P);
    TrimmedChars(Split(value, ','), P);
  }

  /** Where `^` matches in multi-line mode. */
  predicate LineStart(s: string, i: nat)
  {
    i <= |s| && (i == 0 || IsLineBreak(s[i - 1]))
  }

  /** A line of `s` starting at `i` reads `key=`. */
  predicate KeyLineAt(s: string, key: string, i: nat)
  {
    LineStart(s, i) && StartsWith(s[i..], key + "=")
  }

  /** The first line at or after `from` that reads `key=`. */
  function FirstKeyLine(s: string, key: string, from: nat): (r: Option<nat>)
    requires from <= |s|
    ensures r.Some? ==> from <= r.value <= |s| && KeyLineAt(s, key, r.value)
    decreases |s| - from
  {
    if KeyLineAt(s, key, from) then Some(from)
    else if from == |s| then None
    else FirstKeyLine(s, key, from + 1)
  }

  /** No `key=` line lies between `from` and the one found. */
  lemma {:induction false} FirstKeyLineMinimal(s: string, key: string, from: nat, j: nat)
    requires from <= j <= |s|
    requires FirstKeyLine(s, key, from).None? || j < FirstKeyLine(s, key, from).value
    ensures !KeyLineAt(s, key, j)
    decreases |s| - from
  {
    if !KeyLineAt(s, key, from) && from < j {
      FirstKeyLineMinimal(s, key, from + 1, j);
    }
  }

  /** The first `key=` line from `from` on is the one at `i` when there is
      none between. */
  lemma {:induction false} FirstKeyLineFrom(s: string, key: string, from: nat, i: nat)
    requires from <= i <= |s| && KeyLineAt(s, key, i)
    requires forall j: nat :: from <= j < i ==> !KeyLineAt(s, key, j)
    ensures FirstKeyLine(s, key, from) == Some(i)
    decreases i - from
  {
    if from < i {
      FirstKeyLineFrom(s, key, from + 1, i);
    }
  }

  /** The end of the line holding position `j`: the next line break or the
      end of the text. */
  function LineEnd(s: string, j: nat): (e: nat)
    requires j <= |s|
    ensures j <= e <= |s| && (e == |s| || IsLineBreak(s[e]))
    ensures forall k :: j <= k < e ==> !IsLineBreak(s[k])
    decreases |s| - j
  {
    if j == |s| || IsLineBreak(s[j]) then j else LineEnd(s, j + 1)
  }

  /** The rest of the line from `v`. */
  function RestOfLine(content: string, v: nat): string
    requires v <= |content|
  {
    content[v..LineEnd(content, v)]
  }

  /** `content.match(new RegExp('^' + key + '=(.*)$', 'm'))?.[1]`: the rest
      of the first line that reads `key=`. */
  function EnvValue(content: string, key: string): Option<string>
  {
    match FirstKeyLine(content, key, 0)
    case None => None
    case Some(i) => Some(RestOfLine(content, i + |key| + 1))
  }

  /** A value read from the text holds no line break. */
  lemma EnvValueNoBreak(content: string, key: string)
    ensures EnvValue(content, key).Some? ==> NoLineBreak(EnvValue(content, key).value)
  {
    if FirstKeyLine(content, key, 0).Some? {
      var v := FirstKeyLine(content, key, 0).value + |key| + 1;
      var e := LineEnd(content, v);
      assert forall k :: 0 <= k < e - v ==> content[v..e][k] == content[v + k];
    }
  }

  /** The rest of a line that ends at `e`. */
  lemma RestOfLineAt(s: string, v: nat, e: nat)
    requires v <= e <= |s|
    requires forall k :: v <= k < e ==> !IsLineBreak(s[k])
    requires e == |s| || IsLineBreak(s[e])
    ensures RestOfLine(s, v) == s[v..e]
  {
    LineEndAt(s, v, e);
  }

  /** `upsertEnvVar(content, key, value)`: the first `key=` line becomes
      `key=value`; without one, `key=value` and a line break are appended,
      after a line break when the text does not already end with one. */
  function UpsertEnvVar(content: string, key: string, value: string): string
  {
    var line := key + "=" + value;
    match FirstKeyLine(content, key, 0)
    case Some(i) => content[..i] + line + content[LineEnd(content, i + |key| + 1)..]
    case None =>
      var base := if EndsWith(content, "\n") then content else content + "\n";
      base + line + "\n"
  }

  /** Two texts that agree on their first `m` characters agree on every
      `key=` line that ends within them. */
  lemma KeyLineTransfer(s: string, t: string, key: string, j: nat, m: nat)
    requires m <= |s| && m <= |t| && s[..m] == t[..m]
    requires j + |key| + 1 <= m
    ensures KeyLineAt(s, key, j) <==> KeyLineAt(t, key, j)
  {
    var w := |key| + 1;
    assert s[j..][..w] == s[..m][j..j + w];
    assert t[j..][..w] == t[..m][j..j + w];
    if j > 0 {
      assert s[j - 1] == s[..m][j - 1];
      assert t[j - 1] == t[..m][j - 1];
    }
  }

  /** A `key=` line cannot span a line break when the key holds none. */
  lemma KeyLineAvoidsBreak(s: string, key: string, j: nat, b: nat)
    requires NoLineBreak(key) && KeyLineAt(s, key, j)
    requires j <= b < |s| && IsLineBreak(s[b])
    ensures b >= j + |key| + 1
  {
    var w := key + "=";
    assert s[j..][..|w|] == w;
    forall k | j <= k < j + |w| ensures !IsLineBreak(s[k]) {
      assert s[k] == w[k - j];
      if k - j < |key| {
        assert w[k - j] == key[k - j] && NotLineBreak(key[k - j]);
      }
    }
  }

  /** `r` holds the line `key=value` at the line start `i`, followed by a
      line break or the end. */
  predicate LineWritten(r: string, key: string, value: string, i: nat)
  {
    var v := i + |key| + 1;
    v + |value| <= |r| && KeyLineAt(r, key, i) && r[v..v + |value|] == value
    && (v + |value| == |r| || IsLineBreak(r[v + |value|]))
  }

  /** `key=value` placed after a line break (or at the start) and before
      a line break (or the end) is a written line. */
  lemma LineWrittenOf(r: string, pre: string, key: string, value: string, post: string)
    requires r == pre + (key + "=" + value) + post
    requires pre == [] || IsLineBreak(pre[|pre| - 1])
    requires post == [] || IsLineBreak(post[0])
    ensures LineWritten(r, key, value, |pre|)
  {
    var i := |pre|;
    var w := key + "=" + value;
    assert r[i..][..|key| + 1] == key + "=";
    assert r[i + |key| + 1..i + |key| + 1 + |value|] == value;
    if i > 0 {
      assert r[i - 1] == pre[i - 1];
    }
    if post != [] {
      assert r[i + |w|] == post[0];
    }
  }

  /** A `key=` line at `i` in `r` is its first one when `r` agrees with a
      text up to just before `i` and that text has no `key=` line there. */
  lemma FirstKeyLineKept(r: string, content: string, key: string, i: nat, m: nat)
    requires NoLineBreak(key) && KeyLineAt(r, key, i)
    requires m <= i <= m + 1
    requires m <= |content| && m <= |r| && r[..m] == content[..m]
    requires FirstKeyLine(content, key, 0).None? || m <= FirstKeyLine(content, key, 0).value
    ensures FirstKeyLine(r, key, 0) == Some(i)
  {
    forall j: nat | j < i ensures !KeyLineAt(r, key, j) {
      if KeyLineAt(r, key, j) {
        KeyLineAvoidsBreak(r, key, j, i - 1);
        KeyLineTransfer(r, content, key, j, m);
        FirstKeyLineMinimal(content, key, 0, j);
      }
    }
    FirstKeyLineFrom(r, key, 0, i);
  }

  /** Replacing the first `key=` line keeps it the first one. */
  lemma ReplacedLine(content: string, key: string, value: string, i: nat)
    requires NoLineBreak(key)
    requires FirstKeyLine(content, key, 0) == Some(i)
    ensures var r := UpsertEnvVar(content, key, value);
            LineWritten(r, key, value, i) && FirstKeyLine(r, key, 0) == Some(i)
  {
    var r := UpsertEnvVar(content, key, value);
    var e := LineEnd(content, i + |key| + 1);
    assert r == content[..i] + (key + "=" + value) + content[e..];
    if i > 0 {
      assert content[..i][i - 1] == content[i - 1];
    }
    LineWrittenOf(r, content[..i], key, value, content[e..]);
    assert r[..i] == content[..i];
    FirstKeyLineKept(r, content, key, i, i);
  }

  /** Appending `key=value` to a text without a `key=` line makes it the
      first one. */
  lemma AppendedLine(content: string, key: string, value: string)
    requires NoLineBreak(key)
    requires FirstKeyLine(content, key, 0) == None
    ensures var r := UpsertEnvVar(content, key, value);
            var i := |if EndsWith(content, "\n") then content else content + "\n"|;
            LineWritten(r, key, value, i) && FirstKeyLine(r, key, 0) == Some(i)
  {
    var r := UpsertEnvVar(content, key, value);
    var base := if EndsWith(content, "\n") then content else content + "\n";
    var i := |base|;
    assert r == base + (key + "=" + value) + "\n";
    assert base[i - 1] == '\n';
    LineWrittenOf(r, base, key, value, "\n");
    assert r[..i - 1] == content[..i - 1];
    FirstKeyLineKept(r, content, key, i, i - 1);
  }

  /** A written `key=value` line that is the first line of the key reads
      back as the value. */
  lemma WrittenReadsBack(r: string, key: string, value: string, i: nat)
    requires NoLineBreak(value)
    requires LineWritten(r, key, value, i) && FirstKeyLine(r, key, 0) == Some(i)
    ensures EnvValue(r, key) == Some(value)
  {
    var v := i + |key| + 1;
    forall k | v <= k < v + |value| ensures !IsLineBreak(r[k]) {
      assert r[k] == r[v..v + |value|][k - v] == value[k - v];
    }
    RestOfLineAt(r, v, v + |value|);
  }

  /** After `upsertEnvVar`, the key reads back as the value written, for a
      key and a value without line breaks. */
  lemma UpsertThenRead(content: string, key: string, value: string)
    requires NoLineBreak(key) && NoLineBreak(value)
    ensures EnvValue(UpsertEnvVar(content, key, value), key) == Some(value)
  {
    var r := UpsertEnvVar(content, key, value);
    if FirstKeyLine(content, key, 0).Some? {
      var i := FirstKeyLine(content, key, 0).value;
      ReplacedLine(content, key, value, i);
      WrittenReadsBack(r, key, value, i);
    } else {
      AppendedLine(content, key, value);
      WrittenReadsBack(r, key, value, |if EndsWith(content, "\n") then content else content + "\n"|);
    }
  }

  /** The line end is the first line break from `j` on. */
  lemma LineEndAt(s: string, j: nat, e: nat)
    requires j <= e <= |s|
    requires forall k :: j <= k < e ==> !IsLineBreak(s[k])
    requires e == |s| || IsLineBreak(s[e])
    ensures LineEnd(s, j) == e
    decreases e - j
  {
    if j < e {
      LineEndAt(s, j + 1, e);
    }
  }

  // ---------------------------------------------------------------------
  // updateEnvWithPhoneAndDefaultProject

  const AllowedPhonesKey: string := "ALLOWED_PHONE_NUMBERS"
  const DefaultProjectKey: string := "DEFAULT_PROJECT_ID"

  lemma KeysHaveNoLineBreak()
    ensures NoLineBreak(AllowedPhonesKey) && NoLineBreak(DefaultProjectKey)
  {
  }

  /** The allowed numbers listed in the `.env` text. */
  function AllowedPhones(content: string): (r: seq<string>)
    ensures forall i :: 0 <= i < |r| ==> Tidy(r[i]) && ',' !in r[i]
  {
    ParseCsv(match EnvValue(content, AllowedPhonesKey) case Some(v) => v case None => "")
  }

  /** The list with the phone added at the end unless it is already listed. */
  function AddPhone(phones: seq<string>, phone: string): (r: seq<string>)
    ensures phone in r
    ensures phone in phones ==> r == phones
    ensures phone !in phones ==> r == phones + [phone]
  {
    if phone in phones then phones else phones + [phone]
  }

  /** Adding a phone twice is adding it once. */
  lemma AddPhoneIdempotent(phones: seq<string>, phone: string)
    ensures AddPhone(AddPhone(phones, phone), phone) == AddPhone(phones, phone)
  {
  }

  /** The trimmed default project id of the `.env` text. */
  function CurrentDefault(content: string): string
  {
    Trim(match EnvValue(content, DefaultProjectKey) case Some(v) => v case None => "")
  }

  /** A default project id the setup script replaces: empty or a
      placeholder. */
  predicate Replaceable(currentDefault: string)
  {
    currentDefault == [] || currentDefault == "INSERT_DEFAULT_PROJECT_ID" || currentDefault == "sharp-bohr"
  }

  /** The `.env` text once the allowed-phone line lists the phone. */
  function WithPhone(content: string, phone: string): string
  {
    UpsertEnvVar(content, AllowedPhonesKey, Join(AddPhone(AllowedPhones(content), phone), ","))
  }

  /** The listed numbers hold no line break. */
  lemma AllowedPhonesNoBreak(content: string)
    ensures forall i :: 0 <= i < |AllowedPhones(content)| ==> NoLineBreak(AllowedPhones(content)[i])
  {
    var listed := match EnvValue(content, AllowedPhonesKey) case Some(v) => v case None => "";
    EnvValueNoBreak(content, AllowedPhonesKey);
    NoLineBreakChars(listed);
    CsvChars(listed, NotLineBreak);
    forall i | 0 <= i < |AllowedPhones(content)| ensures NoLineBreak(AllowedPhones(content)[i]) {
      NoLineBreakChars(AllowedPhones(content)[i]);
    }
  }

  /** A normalised phone is a trimmed item without comma or line break. */
  lemma DigitsAreCsvItem(phone: string)
    requires phone != [] && AllDigits(phone)
    ensures Tidy(phone) && ',' !in phone && NoLineBreak(phone)
  {
    assert !IsSpace(phone[0]) && !IsSpace(phone[|phone| - 1]);
    TrimVisibleEnds(phone);
    forall i | 0 <= i < |phone| ensures phone[i] != ',' && !IsLineBreak(phone[i]) {
      assert IsDigit(phone[i]);
    }
  }

  /** Adding a trimmed item without comma or line break to a list of such
      items keeps the list so. */
  lemma AddPhoneItems(phones: seq<string>, phone: string)
    requires forall i :: 0 <= i < |phones| ==> Tidy(phones[i]) && ',' !in phones[i] && NoLineBreak(phones[i])
    requires Tidy(phone) && ',' !in phone && NoLineBreak(phone)
    ensures forall i :: 0 <= i < |AddPhone(phones, phone)| ==>
              Tidy(AddPhone(phones, phone)[i]) && ',' !in AddPhone(phones, phone)[i] && NoLineBreak(AddPhone(phones, phone)[i])
  {
  }

  /** A normalised phone written to the allowed list reads back: the list
      is the old one with the phone added once. */
  lemma WithPhoneReadsBack(content: string, phone: string)
    requires phone != [] && AllDigits(phone)
    ensures AllowedPhones(WithPhone(content, phone)) == AddPhone(AllowedPhones(content), phone)
  {
    var xs := AddPhone(AllowedPhones(content), phone);
    var listed := AllowedPhones(content);
    DigitsAreCsvItem(phone);
    AllowedPhonesNoBreak(content);
    AddPhoneItems(listed, phone);
    CsvHasNoLineBreak(xs);
    KeysHaveNoLineBreak();
    UpsertThenRead(content, AllowedPhonesKey, Join(xs, ","));
    TextUtils.CsvRoundTrip(xs);
  }

  /** Running the phone step again with the same phone leaves the list as
      it is. */
  lemma WithPhoneIdempotent(content: string, phone: string)
    requires phone != [] && AllDigits(phone)
    ensures AddPhone(AllowedPhones(WithPhone(content, phone)), phone) == AllowedPhones(WithPhone(content, phone))
  {
    WithPhoneReadsBack(content, phone);
  }

  /** `updateEnvWithPhoneAndDefaultProject(phone, projectId)` on the text of
      the `.env` file: the phone joins the allowed list when it is not listed
      yet, and the default project is written only when the current one is
      empty or a placeholder. */
  method UpdateEnvWithPhoneAndDefaultProject(content: string, phone: string, projectId: string)
    returns (envContent: string)
    ensures !Replaceable(CurrentDefault(WithPhone(content, phone))) ==> envContent == WithPhone(content, phone)
    ensures Replaceable(CurrentDefault(WithPhone(content, phone))) ==>
              envContent == UpsertEnvVar(WithPhone(content, phone), DefaultProjectKey, projectId)
    ensures Replaceable(CurrentDefault(WithPhone(content, phone))) && NoLineBreak(projectId) ==>
              EnvValue(envContent, DefaultProjectKey) == Some(projectId)
    ensures phone != [] && AllDigits(phone) ==>
              AllowedPhones(WithPhone(content, phone)) == AddPhone(AllowedPhones(content), phone)
  {
    envContent := content;
    var currentAllowed := AllowedPhones(envContent);
    if phone !in currentAllowed {
      currentAllowed := currentAllowed + [phone];
    }
    envContent := UpsertEnvVar(envContent, AllowedPhonesKey, Join(currentAllowed, ","));
    if phone != [] && AllDigits(phone) {
      WithPhoneReadsBack(content, phone);
    }
    var currentDefault := CurrentDefault(envContent);
    if Replaceable(currentDefault) {
      envContent := UpsertEnvVar(envContent, DefaultProjectKey, projectId);
      if NoLineBreak(projectId) {
        KeysHaveNoLineBreak();
        UpsertThenRead(WithPhone(content, phone), DefaultProjectKey, projectId);
      }
    }
  }

  /** A comma join of items without line breaks has none. */
  lemma {:induction false} CsvHasNoLineBreak(xs: seq<string>)
    requires forall i :: 0 <= i < |xs| ==> NoLineBreak(xs[i])
    ensures NoLineBreak(Join(xs, ","))
    decreases |xs|
  {
    if |xs| >= 2 {
      CsvHasNoLineBreak(xs[1..]);
      var rest := Join(xs[1..], ",");
      var s := xs[0] + "," + rest;
      forall k | 0 <= k < |s| ensures !IsLineBreak(s[k]) {
        if k < |xs[0]| {
          assert s[k] == xs[0][k];
        } else if k > |xs[0]| {
          assert s[k] == rest[k - |xs[0]| - 1];
        }
      }
    }
  }
}
