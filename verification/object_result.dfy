/**
 * `ObjectResult`: a classifier prediction accepted for display, and the
 * cleanup that turns a raw ResNet label ("n02123045 tabby, tabby cat") into
 * the text shown to the user ("Tabby").
 */
module ObjectResults {
  import opened Wrappers

  /** What the classifier produced: a probability per label and the label it picked. */
  datatype Resnet50Output = Resnet50Output(classLabelProbs: map<string, real>, classLabel: string)

  /** An accepted prediction: the cleaned label, its probability and the raw output. */
  datatype ObjectResult = ObjectResult(cleanedLabel: string, confidence: real, output: Resnet50Output)

  /** The least probability a prediction's own label needs to be accepted. */
  const Threshold: real := 0.3

  /**
   * The failable initialiser `init?(output:)`: the prediction is accepted when
   * its label has a probability and that probability reaches the threshold.
   */
  function FromOutput(prediction: Resnet50Output): (r: Option<ObjectResult>)
    ensures r.None? <==> prediction.classLabel !in prediction.classLabelProbs
                         || prediction.classLabelProbs[prediction.classLabel] < Threshold
    ensures r.Some? ==> r.value.output == prediction
                        && r.value.confidence == prediction.classLabelProbs[prediction.classLabel]
                        && r.value.cleanedLabel == CleanLabel(prediction.classLabel)
  {
    if prediction.classLabel in prediction.classLabelProbs
       && prediction.classLabelProbs[prediction.classLabel] >= Threshold
    then
      Some(ObjectResult(CleanLabel(prediction.classLabel),
                        prediction.classLabelProbs[prediction.classLabel],
                        prediction))
    else
      None
  }

  /** Every accepted result is confident enough and carries a label fit for display. */
  lemma AcceptedResultIsDisplayable(prediction: Resnet50Output)
    requires FromOutput(prediction).Some?
    ensures FromOutput(prediction).value.confidence >= Threshold
    ensures ',' !in FromOutput(prediction).value.cleanedLabel
    ensures IsCapitalized(FromOutput(prediction).value.cleanedLabel)
  {
  }

  /** The boundary of the threshold: 0.29 is refused and exactly 0.3 is accepted. */
  lemma ThresholdBoundary(classLabel: string)
    ensures FromOutput(Resnet50Output(map[classLabel := 0.29], classLabel)).None?
    ensures FromOutput(Resnet50Output(map[classLabel := 0.3], classLabel)).Some?
    ensures FromOutput(Resnet50Output(map[], classLabel)).None?
  {
  }

  // ---------------------------------------------------------------------------
  // Character classes and case mapping

  /** `\d` of the label pattern. */
  predicate IsDigit(c: char) {
    '0' <= c <= '9'
  }

  /** `\s` of the label pattern: tab, line feed, form feed, carriage return and the Unicode separators. */
  predicate IsWhitespace(c: char) {
    c == '\t' || c == '\n' || c == '\U{000C}' || c == '\r'
    || c == ' ' || c == '\U{00A0}' || c == '\U{1680}'
    || ('\U{2000}' <= c <= '\U{200A}')
    || c == '\U{2028}' || c == '\U{2029}' || c == '\U{202F}' || c == '\U{205F}' || c == '\U{3000}'
  }

  function ToUpper(c: char): (u: char)
    ensures 'a' <= c <= 'z' ==> 'A' <= u <= 'Z' && u as int == c as int - 32
    ensures !('a' <= c <= 'z') ==> u == c
  {
    if 'a' <= c <= 'z' then (c as int - 32) as char else c
  }

  function ToLower(c: char): (l: char)
    ensures 'A' <= c <= 'Z' ==> 'a' <= l <= 'z' && l as int == c as int + 32
    ensures !('A' <= c <= 'Z') ==> l == c
  {
    if 'A' <= c <= 'Z' then (c as int + 32) as char else c
  }

  /** `s` reads as a capitalised word: its first character is no lower-case letter, the others no upper-case letter. */
  predicate IsCapitalized(s: string) {
    s == [] || (ToUpper(s[0]) == s[0] && forall i :: 1 <= i < |s| ==> ToLower(s[i]) == s[i])
  }

  /** `a` and `b` have the same characters, up to the case of letters. */
  predicate SameUpToCase(a: string, b: string) {
    |a| == |b| && forall i :: 0 <= i < |a| ==> ToLower(a[i]) == ToLower(b[i])
  }

  // ---------------------------------------------------------------------------
  // Step 1: the text before the first comma

  /** `components(separatedBy: ",").first`: everything before the first comma, or all of `s`. */
  function FirstComponent(s: string): (r: string)
    ensures ',' !in r
    ensures r <= s
    ensures |r| == |s| || s[|r|] == ','
  {
    if s == [] || s[0] == ',' then [] else [s[0]] + FirstComponent(s[1..])
  }

  lemma {:induction false} FirstComponentOfCommaFree(s: string)
    requires ',' !in s
    ensures FirstComponent(s) == s
  {
    if s != [] {
      assert s[0] in s;
      assert ',' !in s[1..] by {
        forall i | 0 <= i < |s[1..]| ensures s[1..][i] != ',' {
          assert s[1..][i] == s[i + 1];
        }
      }
      FirstComponentOfCommaFree(s[1..]);
      assert s == [s[0]] + s[1..];
    }
  }

  // ---------------------------------------------------------------------------
  // Step 2: the leading technical identifier `^n\d+\s+`

  /** The length of the longest prefix of `s` whose characters all satisfy `inClass`. */
  function LeadingRun(s: string, inClass: char -> bool): (n: nat)
    ensures n <= |s|
    ensures forall i :: 0 <= i < n ==> inClass(s[i])
    ensures n < |s| ==> !inClass(s[n])
  {
    if s != [] && inClass(s[0]) then 1 + LeadingRun(s[1..], inClass) else 0
  }

  /**
   * One way the pattern `^n\d+\s+` can match `s[..k]`: an `n`, the digits
   * `s[1..j]` and the whitespace `s[j..k]`, each run non-empty.
   */
  ghost predicate TechIdSplit(s: string, j: int, k: int) {
    && 2 <= j < k <= |s|
    && s[0] == 'n'
    && (forall i :: 1 <= i < j ==> IsDigit(s[i]))
    && (forall i :: j <= i < k ==> IsWhitespace(s[i]))
  }

  ghost predicate MatchesTechId(s: string, k: int) {
    exists j :: TechIdSplit(s, j, k)
  }

  /** The length of the prefix that the greedy pattern `^n\d+\s+` removes; 0 when it does not match. */
  function TechIdLength(s: string): (n: nat)
    ensures n <= |s|
    ensures n > 0 ==> s[0] == 'n'
  {
    if |s| == 0 || s[0] != 'n' then 0
    else
      var digits := LeadingRun(s[1..], IsDigit);
      var spaces := LeadingRun(s[1 + digits..], IsWhitespace);
      if digits == 0 || spaces == 0 then 0 else 1 + digits + spaces
  }

  /** In any match the digit run is the longest one, and the whitespace run is no longer than the longest one. */
  lemma TechIdSplitForced(s: string, j: int, k: int)
    requires TechIdSplit(s, j, k)
    ensures j == 1 + LeadingRun(s[1..], IsDigit)
    ensures k - j <= LeadingRun(s[j..], IsWhitespace)
  {
    var afterN := s[1..];
    forall i | 0 <= i < j - 1 ensures IsDigit(afterN[i]) {
      assert afterN[i] == s[i + 1];
    }
    assert !IsDigit(afterN[j - 1]) by {
      assert afterN[j - 1] == s[j];
    }
    var afterDigits := s[j..];
    forall i | 0 <= i < k - j ensures IsWhitespace(afterDigits[i]) {
      assert afterDigits[i] == s[j + i];
    }
  }

  /** `TechIdLength` is exactly the regular expression's greedy match: 0 when nothing matches, else the longest match. */
  lemma TechIdLengthIsLongestMatch(s: string)
    ensures forall k :: MatchesTechId(s, k) ==> 0 < k <= TechIdLength(s)
    ensures TechIdLength(s) > 0 ==> MatchesTechId(s, TechIdLength(s))
  {
    forall k | MatchesTechId(s, k) ensures 0 < k <= TechIdLength(s) {
      var j :| TechIdSplit(s, j, k);
      TechIdSplitForced(s, j, k);
      assert s[1 + (j - 1)..] == s[j..];
    }
    var n := TechIdLength(s);
    if n > 0 {
      var digits := LeadingRun(s[1..], IsDigit);
      forall i | 1 <= i < 1 + digits ensures IsDigit(s[i]) {
        assert s[1..][i - 1] == s[i];
      }
      forall i | 1 + digits <= i < n ensures IsWhitespace(s[i]) {
        assert s[1 + digits..][i - 1 - digits] == s[i];
      }
      assert TechIdSplit(s, 1 + digits, n);
    }
  }

  // ---------------------------------------------------------------------------
  // Step 3: capitalisation

  function Lowercased(s: string): (r: string)
    ensures |r| == |s|
    ensures forall i :: 0 <= i < |s| ==> r[i] == ToLower(s[i])
  {
    seq(|s|, i requires 0 <= i < |s| => ToLower(s[i]))
  }

  /** `prefix(1).uppercased() + dropFirst().lowercased()`. */
  function CapitalizeFirst(s: string): (r: string)
    ensures IsCapitalized(r)
    ensures SameUpToCase(r, s)
  {
    if s == [] then [] else [ToUpper(s[0])] + Lowercased(s[1..])
  }

  // ---------------------------------------------------------------------------
  // The whole cleanup

  /**
   * `cleanLabel(_:)`: cut at the first comma, drop a leading `n<digits><spaces>`,
   * then capitalise.
   */
  function CleanLabel(raw: string): (r: string)
    ensures ',' !in r
    ensures |r| <= |raw|
    ensures IsCapitalized(r)
    ensures var first := FirstComponent(raw); SameUpToCase(r, first[TechIdLength(first)..])
    ensures raw == [] ==> r == []
  {
    var first := FirstComponent(raw);
    var r := CapitalizeFirst(first[TechIdLength(first)..]);
    assert ',' !in r by {
      forall i | 0 <= i < |r| ensures r[i] != ',' {
        assert first[TechIdLength(first)..][i] in first;
      }
    }
    r
  }

  /** A label with no technical identifier keeps every character; only the case of letters changes. */
  lemma CleanLabelWithoutTechId(raw: string)
    requires forall k :: !MatchesTechId(FirstComponent(raw), k)
    ensures SameUpToCase(CleanLabel(raw), FirstComponent(raw))
  {
    var first := FirstComponent(raw);
    TechIdLengthIsLongestMatch(first);
    assert first[0..] == first;
  }

  /** Cleaning a cleaned label changes nothing. */
  lemma CleanLabelIdempotent(raw: string)
    ensures CleanLabel(CleanLabel(raw)) == CleanLabel(raw)
  {
    var r := CleanLabel(raw);
    FirstComponentOfCommaFree(r);
    assert TechIdLength(r) == 0;
    assert r[0..] == r;
    var c := CapitalizeFirst(r);
    assert |c| == |r|;
    forall i | 0 <= i < |r| ensures c[i] == r[i] {
    }
  }

  /** The cut made by `FirstComponent` is fixed by the position of the first comma. */
  lemma FirstComponentEndsAt(s: string, n: nat)
    requires n <= |s|
    requires ',' !in s[..n]
    requires n == |s| || s[n] == ','
    ensures FirstComponent(s) == s[..n]
  {
    forall i | 0 <= i < n ensures s[i] != ',' {
      assert s[..n][i] == s[i];
    }
    var r := FirstComponent(s);
    assert r == s[..|r|];
    assert forall i :: 0 <= i < |r| ==> r[i] == s[i] && r[i] in r;
    assert |r| == n;
  }

  lemma LeadingRunIs(s: string, inClass: char -> bool, n: nat)
    requires n <= |s|
    requires forall i :: 0 <= i < n ==> inClass(s[i])
    requires n == |s| || !inClass(s[n])
    ensures LeadingRun(s, inClass) == n
  {
  }

  /** The prefix `n<digits><spaces>` of the given run lengths is what `TechIdLength` measures. */
  lemma TechIdLengthOf(s: string, digits: nat, spaces: nat)
    requires 0 < digits && 0 < spaces && 1 + digits + spaces <= |s|
    requires s[0] == 'n'
    requires forall i :: 1 <= i < 1 + digits ==> IsDigit(s[i])
    requires !IsDigit(s[1 + digits])
    requires forall i :: 1 + digits <= i < 1 + digits + spaces ==> IsWhitespace(s[i])
    requires 1 + digits + spaces == |s| || !IsWhitespace(s[1 + digits + spaces])
    ensures TechIdLength(s) == 1 + digits + spaces
  {
    LeadingRunIs(s[1..], IsDigit, digits);
    LeadingRunIs(s[1 + digits..], IsWhitespace, spaces);
  }

  /** Both example identifiers are an `n`, eight digits and one space. */
  lemma ExampleTechIdLength(first: string)
    requires first == "n02123045 tabby" || first == "n04285008 sports car"
    ensures TechIdLength(first) == 10
  {
    TechIdLengthOf(first, 8, 1);
  }

  /** `t` holds no letter from `A` to `Z`. */
  predicate NoCapitals(t: string) {
    t == [] || (!('A' <= t[0] <= 'Z') && NoCapitals(t[1..]))
  }

  /** Lowercasing leaves a string without capital letters as it is. */
  lemma {:induction false} LowercasedWithoutCapitals(t: string)
    requires NoCapitals(t)
    ensures Lowercased(t) == t
  {
    if t != [] {
      LowercasedWithoutCapitals(t[1..]);
      assert Lowercased(t) == [ToLower(t[0])] + Lowercased(t[1..]);
    }
  }

  /*
   * Three labels worked through: the one `cleanLabel`'s own comment gives as
   * its example, one without a comma and one without a technical identifier.
   * Each is stated for an argument equal to the literal, which keeps the
   * verifier from unfolding the recursive definitions over the literal text.
   */

  /** `CleanLabel` assembled from its three stages. */
  lemma CleanLabelFrom(raw: string, first: string, idLength: nat, word: string)
    requires FirstComponent(raw) == first
    requires TechIdLength(first) == idLength
    requires idLength <= |first| && CapitalizeFirst(first[idLength..]) == word
    ensures CleanLabel(raw) == word
  {
  }

  lemma CleanLabelTabby(raw: string)
    requires raw == "n02123045 tabby, tabby cat"
    ensures CleanLabel(raw) == "Tabby"
  {
    TabbyFirstComponent(raw);
    var first := FirstComponent(raw);
    ExampleTechIdLength(first);
    assert first[10..] == "tabby";
    TabbyCapitalized(first[10..]);
    CleanLabelFrom(raw, first, 10, "Tabby");
  }

  lemma TabbyFirstComponent(raw: string)
    requires raw == "n02123045 tabby, tabby cat"
    ensures FirstComponent(raw) == "n02123045 tabby"
  {
    FirstComponentEndsAt(raw, 15);
    assert raw[..15] == "n02123045 tabby";
  }

  lemma TabbyCapitalized(s: string)
    requires s == "tabby"
    ensures CapitalizeFirst(s) == "Tabby"
  {
    assert s[1..] == "abby";
    LowercasedWithoutCapitals("abby");
  }

  lemma CleanLabelSportsCar(raw: string)
    requires raw == "n04285008 sports car"
    ensures CleanLabel(raw) == "Sports car"
  {
    WholeLabelIsFirstComponent(raw);
    ExampleTechIdLength(raw);
    assert raw[10..] == "sports car";
    SportsCarCapitalized(raw[10..]);
    CleanLabelFrom(raw, raw, 10, "Sports car");
  }

  /** A label without a comma is its own first component. */
  lemma WholeLabelIsFirstComponent(raw: string)
    requires raw == "n04285008 sports car" || raw == "airliner"
    ensures FirstComponent(raw) == raw
  {
    assert raw[..|raw|] == raw;
    FirstComponentEndsAt(raw, |raw|);
  }

  lemma SportsCarCapitalized(s: string)
    requires s == "sports car"
    ensures CapitalizeFirst(s) == "Sports car"
  {
    assert s[1..] == "ports car";
    LowercasedWithoutCapitals("ports car");
    assert ['S'] + "ports car" == "Sports car";
  }

  lemma CleanLabelAirliner(raw: string)
    requires raw == "airliner"
    ensures CleanLabel(raw) == "Airliner"
  {
    WholeLabelIsFirstComponent(raw);
    assert TechIdLength(raw) == 0;
    assert raw[0..] == raw;
    AirlinerCapitalized(raw);
    CleanLabelFrom(raw, raw, 0, "Airliner");
  }

  lemma AirlinerCapitalized(s: string)
    requires s == "airliner"
    ensures CapitalizeFirst(s) == "Airliner"
  {
    assert s[1..] == "irliner";
    LowercasedWithoutCapitals("irliner");
  }
}
