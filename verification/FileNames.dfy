/** Decimal numbers and the file names of descriptor documents. */
module FileNames {
  import opened Wrappers
  import opened Widths

  // ----- Decimal numbers -----

  predicate IsDigit(c: char) {
    '0' <= c <= '9'
  }

  function DigitOf(n: nat): char
    requires n < 10
  {
    ['0', '1', '2', '3', '4', '5', '6', '7', '8', '9'][n]
  }

  function ValueOf(c: char): nat
    requires IsDigit(c)
  {
    c as int - '0' as int
  }

  function Decimal(n: nat): (s: string)
    ensures |s| >= 1 && forall i :: 0 <= i < |s| ==> IsDigit(s[i])
  {
    if n < 10 then [DigitOf(n)] else Decimal(n / 10) + [DigitOf(n % 10)]
  }

  predicate AllDigits(s: string) {
    forall i :: 0 <= i < |s| ==> IsDigit(s[i])
  }

  function DigitsValue(s: string): nat
    requires AllDigits(s)
  {
    if s == [] then 0 else 10 * DigitsValue(s[..|s| - 1]) + ValueOf(s[|s| - 1])
  }

  /** A number as the agent reads one: an optional plus sign and digits, at
      most the largest 64-bit number. */
  function ParseU64(s: string): Option<nat> {
    var digits := if s != [] && s[0] == '+' then s[1..] else s;
    if digits == [] || !AllDigits(digits) || DigitsValue(digits) > U64_MAX then None
    else Some(DigitsValue(digits))
  }

  lemma {:induction false} DecimalIsRead(n: nat)
    ensures AllDigits(Decimal(n)) && DigitsValue(Decimal(n)) == n
    decreases n
  {
    if n < 10 {
    } else {
      DecimalIsRead(n / 10);
      assert Decimal(n)[..|Decimal(n)| - 1] == Decimal(n / 10);
    }
  }

  lemma ParsingReadsDecimals(n: nat)
    requires n <= U64_MAX
    ensures ParseU64(Decimal(n)) == Some(n)
  {
    DecimalIsRead(n);
  }

  // ----- Deployment ids -----

  const MAX_DEPLOYMENT_ID_BYTES := 128

  predicate IdCharacter(c: char) {
    'a' <= c <= 'z' || 'A' <= c <= 'Z' || IsDigit(c) || c == '-' || c == '_' || c == '.'
  }

  predicate IsValidDeploymentId(value: string) {
    && 1 <= |value| <= MAX_DEPLOYMENT_ID_BYTES
    && value != "." && value != ".."
    && (forall i :: 0 <= i < |value| ==> IdCharacter(value[i]))
  }

  // ----- Document names -----

  const PREFIX := "descriptor-"
  const SUFFIX := ".json"
  const UNFINISHED := ".tmp"

  function FileName(deploymentId: string, generation: nat): Option<string> {
    if IsValidDeploymentId(deploymentId)
    then Some(PREFIX + deploymentId + "-" + Decimal(generation) + SUFFIX)
    else None
  }

  function StripPrefix(s: string, prefix: string): Option<string> {
    if prefix <= s then Some(s[|prefix|..]) else None
  }

  function StripSuffix(s: string, suffix: string): Option<string> {
    if |suffix| <= |s| && s[|s| - |suffix|..] == suffix then Some(s[..|s| - |suffix|]) else None
  }

  /** What stands before and after the last dash. */
  function SplitAtLastDash(s: string): Option<(string, string)>
    decreases |s|
  {
    if s == [] then None
    else if s[|s| - 1] == '-' then Some((s[..|s| - 1], ""))
    else
      match SplitAtLastDash(s[..|s| - 1])
      case None => None
      case Some((before, after)) => Some((before, after + [s[|s| - 1]]))
  }

  function Built(rest: string): Option<string> {
    match SplitAtLastDash(rest)
    case None => None
    case Some((id, generation)) =>
      match ParseU64(generation)
      case None => None
      case Some(value) => FileName(id, value)
  }

  /** Whether `name` is a document's, or that of a write that did not finish. */
  predicate IsDocument(name: string) {
    var document := match StripSuffix(name, UNFINISHED) case Some(s) => s case None => name;
    match StripPrefix(document, PREFIX)
    case None => false
    case Some(tail) =>
      match StripSuffix(tail, SUFFIX)
      case None => false
      case Some(rest) => Built(rest) == Some(document)
  }

  // ----- The laws -----

  predicate HasNoDash(s: string) {
    forall i :: 0 <= i < |s| ==> s[i] != '-'
  }

  lemma {:induction false} SplittingUndoesJoining(before: string, after: string)
    requires HasNoDash(after)
    ensures SplitAtLastDash(before + "-" + after) == Some((before, after))
    decreases |after|
  {
    var s := before + "-" + after;
    if after == [] {
      assert s[..|s| - 1] == before;
    } else {
      var shorter := after[..|after| - 1];
      assert s[..|s| - 1] == before + "-" + shorter;
      SplittingUndoesJoining(before, shorter);
      assert after == shorter + [after[|after| - 1]];
    }
  }

  lemma DecimalsHaveNoDash(n: nat)
    ensures HasNoDash(Decimal(n))
  {
  }

  /** The part of a document's name between its prefix and its suffix. */
  function Stem(deploymentId: string, generation: nat): string {
    deploymentId + "-" + Decimal(generation)
  }

  lemma NamesWrapTheirStem(deploymentId: string, generation: nat)
    requires IsValidDeploymentId(deploymentId)
    ensures FileName(deploymentId, generation) == Some(PREFIX + Stem(deploymentId, generation) + SUFFIX)
  {
    assert PREFIX + Stem(deploymentId, generation) + SUFFIX
        == PREFIX + deploymentId + "-" + Decimal(generation) + SUFFIX;
  }

  lemma WrappingIsStripped(stem: string)
    ensures StripPrefix(PREFIX + stem + SUFFIX, PREFIX) == Some(stem + SUFFIX)
    ensures StripSuffix(stem + SUFFIX, SUFFIX) == Some(stem)
    ensures StripSuffix(PREFIX + stem + SUFFIX, UNFINISHED).None?
    ensures StripSuffix(PREFIX + stem + SUFFIX + UNFINISHED, UNFINISHED) == Some(PREFIX + stem + SUFFIX)
  {
    var name := PREFIX + stem + SUFFIX;
    assert name[|PREFIX|..] == stem + SUFFIX;
    assert (stem + SUFFIX)[|stem|..] == SUFFIX && (stem + SUFFIX)[..|stem|] == stem;
    assert name[|name| - 1] == 'n' && name[|name| - |UNFINISHED|..][3] == 'n';
    assert (name + UNFINISHED)[|name|..] == UNFINISHED && (name + UNFINISHED)[..|name|] == name;
  }

  /** Document names are injective in the id and the generation, for ids that
      may hold dashes, dots and digits themselves. */
  lemma NamesAreInjective(a: string, g: nat, b: string, h: nat)
    requires IsValidDeploymentId(a) && IsValidDeploymentId(b)
    requires FileName(a, g) == FileName(b, h)
    ensures a == b && g == h
  {
    NamesWrapTheirStem(a, g);
    NamesWrapTheirStem(b, h);
    WrappingIsStripped(Stem(a, g));
    WrappingIsStripped(Stem(b, h));
    DecimalsHaveNoDash(g);
    DecimalsHaveNoDash(h);
    SplittingUndoesJoining(a, Decimal(g));
    SplittingUndoesJoining(b, Decimal(h));
    DecimalIsRead(g);
    DecimalIsRead(h);
  }

  lemma NamesAreDocuments(deploymentId: string, generation: nat)
    requires IsValidDeploymentId(deploymentId) && generation <= U64_MAX
    ensures IsDocument(FileName(deploymentId, generation).value)
    ensures IsDocument(FileName(deploymentId, generation).value + UNFINISHED)
  {
    NamesWrapTheirStem(deploymentId, generation);
    WrappingIsStripped(Stem(deploymentId, generation));
    DecimalsHaveNoDash(generation);
    SplittingUndoesJoining(deploymentId, Decimal(generation));
    ParsingReadsDecimals(generation);
  }

  /** A name of the form a write gives a document. */
  ghost predicate NamesADocument(name: string, deploymentId: string, generation: nat) {
    && IsValidDeploymentId(deploymentId) && generation <= U64_MAX
    && (name == FileName(deploymentId, generation).value
        || name == FileName(deploymentId, generation).value + UNFINISHED)
  }

  /** Exactly the names of documents, and those names with the suffix of an
      unfinished write, are taken for documents. */
  lemma DocumentsAreTheNames(name: string)
    ensures IsDocument(name) <==> exists deploymentId, generation :: NamesADocument(name, deploymentId, generation)
  {
    if IsDocument(name) {
      var document := match StripSuffix(name, UNFINISHED) case Some(s) => s case None => name;
      var rest := StripSuffix(StripPrefix(document, PREFIX).value, SUFFIX).value;
      var (id, generation) := SplitAtLastDash(rest).value;
      var value := ParseU64(generation).value;
      assert name == document || name == document + UNFINISHED;
      assert NamesADocument(name, id, value);
    }
    forall deploymentId, generation | NamesADocument(name, deploymentId, generation) ensures IsDocument(name) {
      NamesAreDocuments(deploymentId, generation);
    }
  }
}
