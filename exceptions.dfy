/**
  The Autometa error taxonomy: a root error class with five leaf classes
  directly beneath it, and the message rendering of the two leaf classes
  that carry a payload (ExternalToolError and DatabaseOutOfSyncError).
 */
module Exceptions {
  import opened Strings

  // ---------------------------------------------------------------------------
  // The class hierarchy
  // ---------------------------------------------------------------------------

  /** The error classes the module declares. */
  datatype ErrorClass =
    | AutometaErrorClass
    | TableFormatErrorClass
    | BinningErrorClass
    | ChecksumMismatchErrorClass
    | ExternalToolErrorClass
    | DatabaseOutOfSyncErrorClass

  /** The five classes declared as direct subclasses of AutometaError. */
  predicate IsLeafClass(c: ErrorClass) {
    c != AutometaErrorClass
  }

  /**
    The declared base class inside the taxonomy. AutometaError's own base is
    the platform's Exception, which is outside the taxonomy.
   */
  function BaseClass(c: ErrorClass): Option<ErrorClass> {
    match c
    case AutometaErrorClass => None
    case TableFormatErrorClass => Some(AutometaErrorClass)
    case BinningErrorClass => Some(AutometaErrorClass)
    case ChecksumMismatchErrorClass => Some(AutometaErrorClass)
    case ExternalToolErrorClass => Some(AutometaErrorClass)
    case DatabaseOutOfSyncErrorClass => Some(AutometaErrorClass)
  }

  /** Distance from the root of the taxonomy; it bounds the walk up the bases. */
  function Depth(c: ErrorClass): nat {
    if c == AutometaErrorClass then 0 else 1
  }

  /** `c` is `d` or inherits from it through the declared bases. */
  predicate IsSubclass(c: ErrorClass, d: ErrorClass)
    decreases Depth(c)
  {
    c == d || (BaseClass(c).Some? && Depth(BaseClass(c).value) < Depth(c) && IsSubclass(BaseClass(c).value, d))
  }

  // ---------------------------------------------------------------------------
  // Error values
  // ---------------------------------------------------------------------------

  /**
    An error instance. A bare AutometaError and the three leaf kinds without a
    constructor of their own keep whatever message they were raised with;
    ExternalToolError keeps the command line and the captured error text;
    DatabaseOutOfSyncError keeps the context value.
   */
  datatype AutometaError =
    | Root(message: Option<string>)
    | TableFormat(message: Option<string>)
    | Binning(message: Option<string>)
    | ChecksumMismatch(message: Option<string>)
    | ExternalTool(cmd: string, err: string)
    | DatabaseOutOfSync(value: string)

  /** The class an instance was constructed from. */
  function ClassOf(e: AutometaError): ErrorClass {
    match e
    case Root(_) => AutometaErrorClass
    case TableFormat(_) => TableFormatErrorClass
    case Binning(_) => BinningErrorClass
    case ChecksumMismatch(_) => ChecksumMismatchErrorClass
    case ExternalTool(_, _) => ExternalToolErrorClass
    case DatabaseOutOfSync(_) => DatabaseOutOfSyncErrorClass
  }

  /** An `except c` clause catches `e`. */
  predicate IsInstance(e: AutometaError, c: ErrorClass) {
    IsSubclass(ClassOf(e), c)
  }

  // Kind predicates: one per class, standing in for catch-by-class.

  predicate IsAutometaError(e: AutometaError) {
    e.Root? || e.TableFormat? || e.Binning? || e.ChecksumMismatch? || e.ExternalTool? || e.DatabaseOutOfSync?
  }

  predicate IsTableFormat(e: AutometaError) { e.TableFormat? }

  predicate IsBinning(e: AutometaError) { e.Binning? }

  predicate IsChecksumMismatch(e: AutometaError) { e.ChecksumMismatch? }

  predicate IsExternalTool(e: AutometaError) { e.ExternalTool? }

  predicate IsDatabaseOutOfSync(e: AutometaError) { e.DatabaseOutOfSync? }

  /** The kind predicate that belongs to class `c`. */
  predicate HasKind(e: AutometaError, c: ErrorClass) {
    match c
    case AutometaErrorClass => IsAutometaError(e)
    case TableFormatErrorClass => IsTableFormat(e)
    case BinningErrorClass => IsBinning(e)
    case ChecksumMismatchErrorClass => IsChecksumMismatch(e)
    case ExternalToolErrorClass => IsExternalTool(e)
    case DatabaseOutOfSyncErrorClass => IsDatabaseOutOfSync(e)
  }

  // ---------------------------------------------------------------------------
  // Construction
  // ---------------------------------------------------------------------------

  /** ExternalToolError(cmd, err): binds both payload fields, for any strings. */
  function NewExternalToolError(cmd: string, err: string): (e: AutometaError)
    ensures ClassOf(e) == ExternalToolErrorClass
    ensures e.ExternalTool? && e.cmd == cmd && e.err == err
  {
    ExternalTool(cmd, err)
  }

  /** DatabaseOutOfSyncError(value): binds the context value, for any string. */
  function NewDatabaseOutOfSyncError(value: string): (e: AutometaError)
    ensures ClassOf(e) == DatabaseOutOfSyncErrorClass
    ensures e.DatabaseOutOfSync? && e.value == value
  {
    DatabaseOutOfSync(value)
  }

  // ---------------------------------------------------------------------------
  // Rendering
  // ---------------------------------------------------------------------------

  /** The label ExternalToolError puts on the line before the command. */
  const CommandLabel: string := "command:"

  /** The indentation every line of the remediation text carries. */
  const Indent: string := "        "

  // The files and download locations the remediation text names.
  const NodesDmp: string := "nodes.dmp"
  const NamesDmp: string := "names.dmp"
  const MergedDmp: string := "merged.dmp"
  const ProtAccession2TaxidGz: string := "prot.accession2taxid.gz"
  const NrGz: string := "nr.gz"
  const TaxdumpTarGz: string := "taxdump.tar.gz"
  const NrUrl: string := "ftp://ftp.ncbi.nlm.nih.gov/blast/db/FASTA/nr.gz"
  const ProtAccession2TaxidUrl: string := "ftp://ftp.ncbi.nlm.nih.gov/pub/taxonomy/accession2taxid/prot.accession2taxid.gz"
  const TaxdumpUrl: string := "ftp://ftp.ncbi.nlm.nih.gov/pub/taxonomy/taxdump.tar.gz"

  // The six lines of the remediation text, without their indentation.
  const RemediationLine1: string :=
    "NCBI databases " + NodesDmp + ", " + NamesDmp + ", " + MergedDmp + ", "
    + ProtAccession2TaxidGz + " and " + NrGz + " may be out of sync."
  const RemediationLine2: string := "Up-to-date databases may be downloaded at:"
  const RemediationLine3: string := "non-redundant protein database (nr) - " + NrUrl
  const RemediationLine4: string := ProtAccession2TaxidGz + " - " + ProtAccession2TaxidUrl
  const RemediationLine5: string := TaxdumpTarGz + " - " + TaxdumpUrl
  const RemediationLine6: string :=
    "Required files within taxdump tarball are *" + NodesDmp + "*, *" + NamesDmp + "* and *" + MergedDmp + "*"

  const RemediationLines: seq<string> :=
    [RemediationLine1, RemediationLine2, RemediationLine3, RemediationLine4, RemediationLine5, RemediationLine6]

  /**
    The remediation text DatabaseOutOfSyncError appends: the source's
    triple-quoted literal, which opens with a newline, puts each of the six
    lines on its own line after the indentation, and closes on a line of
    indentation only.
   */
  const RemediationBlock: string := IndentedLines(Indent, RemediationLines)

  /** ExternalToolError.__str__: the error text, the label line, then the command. */
  function RenderExternalTool(cmd: string, err: string): (r: string)
    ensures |r| == |err| + |cmd| + 10
    ensures r[..|err|] == err
    ensures r[|err|..|err| + 10] == "\n" + CommandLabel + "\n"
    ensures r[|err| + 10..] == cmd
  {
    err + "\n" + CommandLabel + "\n" + cmd
  }

  /** DatabaseOutOfSyncError.__str__: the context value, a newline, then the remediation text. */
  function RenderDatabaseOutOfSync(value: string): (r: string)
    ensures |r| == |value| + 1 + |RemediationBlock|
    ensures r[..|value|] == value && r[|value|] == '\n'
    ensures r[|value| + 1..] == RemediationBlock
  {
    value + "\n" + RemediationBlock
  }

  /**
    The message `str(e)` produces where the module overrides `__str__`; None
    for the kinds that inherit the platform's Exception rendering.
   */
  function Str(e: AutometaError): (r: Option<string>)
    ensures r.Some? <==> (IsExternalTool(e) || IsDatabaseOutOfSync(e))
  {
    match e
    case ExternalTool(cmd, err) => Some(RenderExternalTool(cmd, err))
    case DatabaseOutOfSync(value) => Some(RenderDatabaseOutOfSync(value))
    case _ => None
  }

  /**
    Recovers (cmd, err) from an ExternalToolError message whose command is a
    single line: the command follows the last newline, and the label line
    must stand right before it.
   */
  function ParseExternalTool(s: string): (r: Option<(string, string)>)
    ensures r.Some? ==> '\n' !in r.value.0 && RenderExternalTool(r.value.0, r.value.1) == s
  {
    match LastIndexOf(s, '\n')
    case None => None
    case Some(i) =>
      if 9 <= i && s[i - 9..i + 1] == "\n" + CommandLabel + "\n" then
        var cmd, err := s[i + 1..], s[..i - 9];
        assert s == err + "\n" + CommandLabel + "\n" + cmd;
        Some((cmd, err))
      else None
  }

  // ---------------------------------------------------------------------------
  // Properties of the taxonomy
  // ---------------------------------------------------------------------------

  /** Every class of the taxonomy derives from AutometaError, and only AutometaError is the root. */
  lemma AllClassesDeriveFromRoot(c: ErrorClass)
    ensures IsSubclass(c, AutometaErrorClass)
    ensures IsLeafClass(c) <==> BaseClass(c) == Some(AutometaErrorClass)
  {
  }

  /** Catch-by-root: `except AutometaError` catches every instance of the taxonomy. */
  lemma CatchByRoot(e: AutometaError)
    ensures IsAutometaError(e)
    ensures IsInstance(e, AutometaErrorClass)
  {
    AllClassesDeriveFromRoot(ClassOf(e));
  }

  /** Each kind predicate is exactly an `except` on its class. */
  lemma KindMatchesClass(e: AutometaError, c: ErrorClass)
    ensures HasKind(e, c) <==> IsInstance(e, c)
  {
    if c == AutometaErrorClass {
      CatchByRoot(e);
    }
  }

  /** A leaf class catches exactly the instances constructed from it. */
  lemma CatchByLeaf(e: AutometaError, c: ErrorClass)
    requires IsLeafClass(c)
    ensures IsInstance(e, c) <==> ClassOf(e) == c
  {
  }

  /** Leaf kinds are pairwise distinct: no instance satisfies two of them. */
  lemma LeafKindsDisjoint(e: AutometaError, c: ErrorClass, d: ErrorClass)
    requires IsLeafClass(c) && IsLeafClass(d) && c != d
    ensures !(HasKind(e, c) && HasKind(e, d))
  {
    KindMatchesClass(e, c);
    KindMatchesClass(e, d);
  }

  /**
    Every instance has exactly one leaf kind, except a bare AutometaError,
    which has none and is caught only by the root.
   */
  lemma ExactlyOneLeafKind(e: AutometaError)
    ensures !e.Root? <==> IsLeafClass(ClassOf(e)) && HasKind(e, ClassOf(e))
    ensures forall c :: IsLeafClass(c) && HasKind(e, c) ==> c == ClassOf(e)
  {
  }

  /** A BinningError is never caught as a ChecksumMismatchError. */
  lemma BinningIsNotChecksumMismatch(message: Option<string>)
    ensures !IsChecksumMismatch(Binning(message))
    ensures IsAutometaError(Binning(message))
  {
  }

  // ---------------------------------------------------------------------------
  // Properties of the rendering
  // ---------------------------------------------------------------------------

  /**
    The message of an external-tool error is exactly the error text, a
    newline, the label, a newline and the command, for all strings.
   */
  lemma StrExternalTool(cmd: string, err: string)
    ensures Str(NewExternalToolError(cmd, err)) == Some(err + "\n" + "command:" + "\n" + cmd)
  {
  }

  /**
    A string is the rendering of (cmd, err) exactly when it is err
    followed by the ten-character label line and then cmd.
   */
  lemma ExternalToolRenderCharacterized(cmd: string, err: string, r: string)
    ensures r == RenderExternalTool(cmd, err) <==>
      (|r| == |err| + |cmd| + 10 && r[..|err|] == err && r[|err|..|err| + 10] == "\ncommand:\n" && r[|err| + 10..] == cmd)
  {
  }

  /** A single-line command and the error text are recovered from the message. */
  lemma ParseRenderedExternalTool(cmd: string, err: string)
    requires '\n' !in cmd
    ensures ParseExternalTool(RenderExternalTool(cmd, err)) == Some((cmd, err))
  {
    var s := RenderExternalTool(cmd, err);
    var i := |err| + 9;
    assert s[i] == '\n';
    assert forall j :: i < j < |s| ==> s[j] == cmd[j - i - 1];
    assert LastIndexOf(s, '\n') == Some(i);
    assert s[i - 9..i + 1] == "\n" + CommandLabel + "\n";
    assert s[i + 1..] == cmd;
    assert s[..i - 9] == err;
  }

  /** For single-line commands the message determines both payload fields. */
  lemma ExternalToolRenderInjective(cmd1: string, err1: string, cmd2: string, err2: string)
    requires '\n' !in cmd1 && '\n' !in cmd2
    requires RenderExternalTool(cmd1, err1) == RenderExternalTool(cmd2, err2)
    ensures cmd1 == cmd2 && err1 == err2
  {
    ParseRenderedExternalTool(cmd1, err1);
    ParseRenderedExternalTool(cmd2, err2);
  }

  /**
    With a command that spans several lines, two different external-tool
    errors render to the same message: the label line inside the command
    cannot be told apart from the one the rendering adds.
   */
  lemma ExternalToolRenderAmbiguous(x: string, y: string, z: string)
    ensures var e1, e2 := ExternalTool(y + "\n" + CommandLabel + "\n" + z, x), ExternalTool(z, x + "\n" + CommandLabel + "\n" + y);
      e1 != e2 && Str(e1) == Str(e2)
  {
    var sep := "\n" + CommandLabel + "\n";
    var c1, c2 := y + "\n" + CommandLabel + "\n" + z, x + "\n" + CommandLabel + "\n" + y;
    assert c1 == y + sep + z && c2 == x + sep + y;
    calc {
      RenderExternalTool(c1, x);
      x + sep + (y + sep + z);
      { SeqAppendAssoc(x + sep, y + sep, z); }
      x + sep + (y + sep) + z;
      (x + sep + y) + sep + z;
      RenderExternalTool(z, c2);
    }
    assert |c1| != |z|;
  }

  /** The message of a database-out-of-sync error is the value, a newline and the remediation text. */
  lemma StrDatabaseOutOfSync(value: string)
    ensures Str(NewDatabaseOutOfSyncError(value)) == Some(value + "\n" + RemediationBlock)
  {
  }

  /** The remediation text does not depend on the value: it is the same after removing `value + "\n"`. */
  lemma RemediationIndependentOfValue(v1: string, v2: string)
    ensures RenderDatabaseOutOfSync(v1)[|v1| + 1..] == RenderDatabaseOutOfSync(v2)[|v2| + 1..]
  {
  }

  /** Different values give different database-out-of-sync messages. */
  lemma DatabaseOutOfSyncRenderInjective(v1: string, v2: string)
    requires RenderDatabaseOutOfSync(v1) == RenderDatabaseOutOfSync(v2)
    ensures v1 == v2
  {
  }

  /**
    The shape of the remediation text: 551 characters, a leading newline, and
    a last line of indentation only.
   */
  lemma RemediationBlockShape()
    ensures |RemediationBlock| == 551
    ensures RemediationBlock[0] == '\n'
    ensures RemediationBlock[|RemediationBlock| - 9..] == "\n" + Indent
  {
    IndentedLinesShape(Indent, RemediationLines);
    var ls := RemediationLines;
    assert |ls[0]| == 102 && |ls[1]| == 42 && |ls[2]| == 85 && |ls[3]| == 105 && |ls[4]| == 71 && |ls[5]| == 83;
    assert ls[6..] == [];
    assert |IndentedLines(Indent, ls[5..])| == 9 + 83 + 9 by { assert ls[5..][1..] == ls[6..]; }
    assert |IndentedLines(Indent, ls[4..])| == 9 + 71 + 101 by { assert ls[4..][1..] == ls[5..]; }
    assert |IndentedLines(Indent, ls[3..])| == 9 + 105 + 181 by { assert ls[3..][1..] == ls[4..]; }
    assert |IndentedLines(Indent, ls[2..])| == 9 + 85 + 295 by { assert ls[2..][1..] == ls[3..]; }
    assert |IndentedLines(Indent, ls[1..])| == 9 + 42 + 389 by { assert ls[1..][1..] == ls[2..]; }
  }

  /** What the first line of the remediation text names. */
  lemma RemediationLine1Mentions()
    ensures Contains(RemediationLine1, NodesDmp) && Contains(RemediationLine1, NamesDmp)
    ensures Contains(RemediationLine1, MergedDmp) && Contains(RemediationLine1, ProtAccession2TaxidGz)
    ensures Contains(RemediationLine1, NrGz)
  {
    assert OccursAt(RemediationLine1, NodesDmp, 15);
    assert OccursAt(RemediationLine1, NamesDmp, 26);
    assert OccursAt(RemediationLine1, MergedDmp, 37);
    assert OccursAt(RemediationLine1, ProtAccession2TaxidGz, 49);
    assert OccursAt(RemediationLine1, NrGz, 77);
  }

  /** What the download lines of the remediation text name. */
  lemma RemediationDownloadLinesMention()
    ensures Contains(RemediationLine3, NrUrl)
    ensures Contains(RemediationLine4, ProtAccession2TaxidUrl)
    ensures Contains(RemediationLine5, TaxdumpTarGz) && Contains(RemediationLine5, TaxdumpUrl)
  {
    assert OccursAt(RemediationLine3, NrUrl, 38);
    assert OccursAt(RemediationLine4, ProtAccession2TaxidUrl, 26);
    assert OccursAt(RemediationLine5, TaxdumpTarGz, 0);
    assert OccursAt(RemediationLine5, TaxdumpUrl, 17);
  }

  /** The remediation text names the three taxdump files, the two NCBI databases, the tarball and their download locations. */
  lemma RemediationMentionsResources()
    ensures Contains(RemediationBlock, NodesDmp)
    ensures Contains(RemediationBlock, NamesDmp)
    ensures Contains(RemediationBlock, MergedDmp)
    ensures Contains(RemediationBlock, ProtAccession2TaxidGz)
    ensures Contains(RemediationBlock, NrGz)
    ensures Contains(RemediationBlock, TaxdumpTarGz)
    ensures Contains(RemediationBlock, NrUrl)
    ensures Contains(RemediationBlock, ProtAccession2TaxidUrl)
    ensures Contains(RemediationBlock, TaxdumpUrl)
  {
    RemediationLine1Mentions();
    RemediationDownloadLinesMention();
    var lines := RemediationLines;
    assert lines[0] == RemediationLine1 && lines[2] == RemediationLine3;
    assert lines[3] == RemediationLine4 && lines[4] == RemediationLine5;
    IndentedLinesContains(Indent, lines, 0, NodesDmp);
    IndentedLinesContains(Indent, lines, 0, NamesDmp);
    IndentedLinesContains(Indent, lines, 0, MergedDmp);
    IndentedLinesContains(Indent, lines, 0, ProtAccession2TaxidGz);
    IndentedLinesContains(Indent, lines, 0, NrGz);
    IndentedLinesContains(Indent, lines, 4, TaxdumpTarGz);
    IndentedLinesContains(Indent, lines, 2, NrUrl);
    IndentedLinesContains(Indent, lines, 3, ProtAccession2TaxidUrl);
    IndentedLinesContains(Indent, lines, 4, TaxdumpUrl);
  }

  /** Whatever the value, the rendered database-out-of-sync message names all of these resources. */
  lemma DatabaseOutOfSyncMentionsResources(value: string, t: string)
    requires t in [NodesDmp, NamesDmp, MergedDmp, ProtAccession2TaxidGz, NrGz, TaxdumpTarGz, NrUrl, ProtAccession2TaxidUrl, TaxdumpUrl]
    ensures Contains(RenderDatabaseOutOfSync(value), t)
  {
    RemediationMentionsResources();
    ContainsAfterPrefix(value + "\n", RemediationBlock, t);
  }
}
