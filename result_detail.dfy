/**
 * The logic of the result detail page (src/pages/ResultDetail.tsx): which
 * result is shown, the status of each feature score, and the label shown
 * for each feature key.
 */
module ResultDetail {
  import opened Types
  import ResultStore

  /**
   * `id ? getResultById(id) : undefined`: a missing or empty id, or one
   * with no stored match, gives `None`, the "Result Not Found" view.
   */
  function DetailView(id: Option<string>, stored: seq<DetectionResult>): Option<DetectionResult> {
    if id.Some? && id.value != "" then ResultStore.FindById(stored, id.value) else None
  }

  lemma NotFoundCondition(id: Option<string>, stored: seq<DetectionResult>)
    ensures DetailView(id, stored).None? <==>
      id.None? || id.value == "" || forall k :: 0 <= k < |stored| ==> stored[k].id != id.value
    ensures DetailView(id, stored).Some? ==> DetailView(id, stored).value.id == id.value
  {
  }

  datatype Status = Good | Warning | Bad

  /** `getFeatureStatus`. */
  function FeatureStatus(score: real): Status {
    if score < 30.0 then Good
    else if score < 70.0 then Warning
    else Bad
  }

  function StatusText(s: Status): string {
    match s
    case Good => "Normal"
    case Warning => "Suspicious"
    case Bad => "Anomalous"
  }

  function Severity(s: Status): nat {
    match s
    case Good => 0
    case Warning => 1
    case Bad => 2
  }

  /** The three bands and their texts. */
  lemma FeatureStatusBands(score: real)
    ensures FeatureStatus(score) == Good <==> score < 30.0
    ensures FeatureStatus(score) == Warning <==> 30.0 <= score < 70.0
    ensures FeatureStatus(score) == Bad <==> 70.0 <= score
    ensures StatusText(FeatureStatus(score)) ==
      if score < 30.0 then "Normal" else if score < 70.0 then "Suspicious" else "Anomalous"
  {
  }

  /** A higher score never gets a better status. */
  lemma FeatureStatusMonotone(a: real, b: real)
    requires a <= b
    ensures Severity(FeatureStatus(a)) <= Severity(FeatureStatus(b))
  {
  }

  predicate IsUpper(c: char) {
    'A' <= c <= 'Z'
  }

  /** The characters `String.prototype.trim` removes: white space and line terminators. */
  predicate IsJsWhitespace(c: char) {
    || c == '\U{9}' || c == '\U{A}' || c == '\U{B}' || c == '\U{C}' || c == '\U{D}'
    || c == ' ' || c == '\U{A0}' || c == '\U{1680}' || ('\U{2000}' <= c <= '\U{200A}')
    || c == '\U{2028}' || c == '\U{2029}' || c == '\U{202F}' || c == '\U{205F}' || c == '\U{3000}'
    || c == '\U{FEFF}'
  }

  /** `replace(/([A-Z])/g, ' $1')`: a space before every upper-case letter. */
  function SpaceBeforeUpper(s: string): string {
    if s == [] then []
    else (if IsUpper(s[0]) then [' ', s[0]] else [s[0]]) + SpaceBeforeUpper(s[1..])
  }

  function TrimStart(s: string): string {
    if s != [] && IsJsWhitespace(s[0]) then TrimStart(s[1..]) else s
  }

  function TrimEnd(s: string): string {
    if s != [] && IsJsWhitespace(s[|s| - 1]) then TrimEnd(s[..|s| - 1]) else s
  }

  /** The label shown for a feature key. */
  function Label(key: string): string {
    TrimEnd(TrimStart(SpaceBeforeUpper(key)))
  }

  function RemoveSpaces(s: string): string {
    if s == [] then [] else (if s[0] == ' ' then [] else [s[0]]) + RemoveSpaces(s[1..])
  }

  lemma {:induction false} RemoveSpacesConcat(a: string, b: string)
    ensures RemoveSpaces(a + b) == RemoveSpaces(a) + RemoveSpaces(b)
  {
    if a == [] {
      assert a + b == b;
    } else {
      var c := a[0];
      assert (a + b)[0] == c && (a + b)[1..] == a[1..] + b;
      RemoveSpacesConcat(a[1..], b);
      var keep := if c == ' ' then [] else [c];
      assert RemoveSpaces(a + b) == keep + RemoveSpaces(a[1..] + b);
      assert RemoveSpaces(a) == keep + RemoveSpaces(a[1..]);
    }
  }

  /** Deleting the spaces undoes their insertion, for a key that had none. */
  lemma {:induction false} RemoveSpacesUndoesInsertion(s: string)
    requires ' ' !in s
    ensures RemoveSpaces(SpaceBeforeUpper(s)) == s
  {
    if s != [] {
      var c, rest := s[0], s[1..];
      assert s == [c] + rest;
      assert c != ' ' && ' ' !in rest;
      var head := if IsUpper(c) then [' ', c] else [c];
      assert SpaceBeforeUpper(s) == head + SpaceBeforeUpper(rest);
      RemoveSpacesConcat(head, SpaceBeforeUpper(rest));
      RemoveSpacesUndoesInsertion(rest);
      assert RemoveSpaces(head) == [c];
    }
  }

  lemma {:induction false} SpaceBeforeUpperLast(s: string)
    requires s != []
    ensures SpaceBeforeUpper(s) != [] && SpaceBeforeUpper(s)[|SpaceBeforeUpper(s)| - 1] == s[|s| - 1]
  {
    if |s| > 1 {
      SpaceBeforeUpperLast(s[1..]);
    }
  }

  /** Trimming leaves a string alone when it neither starts nor ends with white space. */
  lemma TrimKeeps(s: string)
    requires s != [] && !IsJsWhitespace(s[0]) && !IsJsWhitespace(s[|s| - 1])
    ensures TrimEnd(TrimStart(s)) == s
  {
  }

  /**
   * The spaced form of a non-empty key starts with a space exactly when the
   * key starts with a capital; after that space it starts and ends like the key.
   */
  lemma SpacedShape(key: string)
    requires key != []
    ensures var spaced := SpaceBeforeUpper(key);
      var body := if IsUpper(key[0]) then spaced[1..] else spaced;
      && |spaced| > 0
      && (IsUpper(key[0]) ==> spaced[0] == ' ' && |spaced| > 1)
      && body != [] && body[0] == key[0] && body[|body| - 1] == key[|key| - 1]
  {
    SpaceBeforeUpperLast(key);
  }

  /**
   * For a key without white space the label is the key with a space before
   * each upper-case letter except a leading one, so deleting the spaces gives
   * the key back.
   */
  lemma LabelRoundTrip(key: string)
    requires forall i :: 0 <= i < |key| ==> !IsJsWhitespace(key[i])
    ensures Label(key) ==
      if key != [] && IsUpper(key[0]) then SpaceBeforeUpper(key)[1..] else SpaceBeforeUpper(key)
    ensures RemoveSpaces(Label(key)) == key
  {
    assert ' ' !in key;
    RemoveSpacesUndoesInsertion(key);
    if key != [] {
      LabelOfSpaced(key);
    }
  }

  /**
   * The label of a non-empty key whose ends are not white space drops only
   * the space inserted before a leading capital.
   */
  lemma LabelOfSpaced(key: string)
    requires key != [] && !IsJsWhitespace(key[0]) && !IsJsWhitespace(key[|key| - 1])
    ensures var spaced := SpaceBeforeUpper(key);
      && (IsUpper(key[0]) ==> Label(key) == spaced[1..] && RemoveSpaces(spaced[1..]) == RemoveSpaces(spaced))
      && (!IsUpper(key[0]) ==> Label(key) == spaced)
  {
    var spaced := SpaceBeforeUpper(key);
    SpacedShape(key);
    if IsUpper(key[0]) {
      var body := spaced[1..];
      TrimStartSpace(spaced);
      TrimKeeps(body);
      assert spaced == [' '] + body;
      RemoveSpacesConcat([' '], body);
    } else {
      TrimKeeps(spaced);
    }
  }

  /** A leading space is trimmed. */
  lemma TrimStartSpace(s: string)
    requires |s| > 1 && s[0] == ' '
    ensures TrimStart(s) == TrimStart(s[1..])
  {
  }

  lemma {:induction false} SpaceBeforeUpperConcat(a: string, b: string)
    ensures SpaceBeforeUpper(a + b) == SpaceBeforeUpper(a) + SpaceBeforeUpper(b)
  {
    if a == [] {
      assert a + b == b;
    } else {
      assert (a + b)[0] == a[0] && (a + b)[1..] == a[1..] + b;
      SpaceBeforeUpperConcat(a[1..], b);
    }
  }

  lemma {:induction false} SpaceBeforeUpperLower(s: string)
    requires forall i :: 0 <= i < |s| ==> !IsUpper(s[i])
    ensures SpaceBeforeUpper(s) == s
  {
    if s != [] {
      assert forall i :: 0 <= i < |s[1..]| ==> s[1..][i] == s[i + 1];
      SpaceBeforeUpperLower(s[1..]);
    }
  }

  predicate NoUpperOrSpace(s: string) {
    forall i :: 0 <= i < |s| ==> !IsUpper(s[i]) && !IsJsWhitespace(s[i])
  }

  /**
   * A camel-case key with one hump: the label puts one space before the
   * upper-case letter and keeps everything else.
   */
  lemma OneHumpLabel(head: string, c: char, tail: string)
    requires head != [] && tail != [] && NoUpperOrSpace(head) && NoUpperOrSpace(tail) && IsUpper(c)
    ensures Label(head + [c] + tail) == head + [' ', c] + tail
  {
    SpaceBeforeUpperLower(head);
    SpaceBeforeUpperLower(tail);
    assert SpaceBeforeUpper([c]) == [' ', c] + SpaceBeforeUpper([]);
    SpaceBeforeUpperConcat(head, [c]);
    assert SpaceBeforeUpper(head + [c]) == head + [' ', c];
    SpaceBeforeUpperConcat(head + [c], tail);
    var spaced := head + [' ', c] + tail;
    assert SpaceBeforeUpper(head + [c] + tail) == spaced;
    assert spaced[0] == head[0] && spaced[|spaced| - 1] == tail[|tail| - 1];
    TrimKeeps(spaced);
  }

  /** The label of `faceInconsistencies` is "face Inconsistencies". */
  lemma FaceInconsistenciesLabel()
    ensures Label("faceInconsistencies") == "face Inconsistencies"
  {
    var head, tail := "face", "nconsistencies";
    assert NoUpperOrSpace(head) && NoUpperOrSpace(tail);
    OneHumpLabel(head, 'I', tail);
    assert head + ['I'] + tail == "faceInconsistencies";
    assert head + [' ', 'I'] + tail == "face Inconsistencies";
  }

  /** One row of the feature analysis card: the label, the status and its text. */
  datatype FeatureRow = FeatureRow(caption: string, status: Status, text: string)

  /** `Object.entries(result.features).map(...)`, in key order. */
  function FeatureRows(f: Features): seq<FeatureRow> {
    seq(5, i requires 0 <= i < 5 =>
      FeatureRow(Label(FeatureKeys[i]), FeatureStatus(f.Values()[i]), StatusText(FeatureStatus(f.Values()[i]))))
  }

  /**
   * For features in the fallback's ranges: a `real` result shows every
   * feature as "Normal", any other never does.
   */
  lemma FallbackFeatureRows(f: Features, verdict: Verdict)
    requires verdict == Real ==> f.AllInHalfOpen(0.0, 30.0)
    requires verdict != Real ==> f.AllInHalfOpen(60.0, 100.0)
    ensures verdict == Real ==> forall i :: 0 <= i < 5 ==> FeatureRows(f)[i].text == "Normal"
    ensures verdict != Real ==> forall i :: 0 <= i < 5 ==> FeatureRows(f)[i].status != Good
  {
  }

  predicate IsLetter(c: char) {
    'a' <= c <= 'z' || 'A' <= c <= 'Z'
  }

  /** The five feature keys are plain camel-case words. */
  lemma FeatureKeysAreWords(i: nat)
    requires i < 5
    ensures forall j :: 0 <= j < |FeatureKeys[i]| ==> IsLetter(FeatureKeys[i][j])
  {
  }

  /**
   * The card shows five rows, one per feature in key order: removing the
   * spaces from a row's caption gives back its key, and its text is
   * "Normal", "Suspicious" or "Anomalous" according as that feature's score
   * is below 30, below 70, or at least 70.
   */
  lemma FeatureRowsSpec(f: Features, i: nat)
    requires i < 5
    ensures |FeatureRows(f)| == 5
    ensures RemoveSpaces(FeatureRows(f)[i].caption) == FeatureKeys[i]
    ensures FeatureRows(f)[i].text == "Normal" <==> f.Values()[i] < 30.0
    ensures FeatureRows(f)[i].text == "Suspicious" <==> 30.0 <= f.Values()[i] < 70.0
    ensures FeatureRows(f)[i].text == "Anomalous" <==> 70.0 <= f.Values()[i]
  {
    FeatureKeysAreWords(i);
    LabelRoundTrip(FeatureKeys[i]);
    FeatureStatusBands(f.Values()[i]);
  }
}
