/**
 Committing a configuration revision (dsh-autolab/src/artifacts.ts): the disk of
 one Lab, the readers that decide what CURRENT names, and the multi-step
 commit, which may fail or stop for good at every file step.

 A digest is any function of the bytes; nothing below assumes that two contents
 never share one.  JSON and UTF-8 are abstract: a text remembers the value it
 was rendered from, and only a manifest has more than one layout.
 */
module Artifacts {
  import opened Wrappers

  datatype Hash = Hex(digest: int) | NotHex(text: string)

  /** `join('revisions', String(n).padStart(6, '0'))`, or any other text. */
  datatype RevisionPath = Revisions(number: int) | OtherPath(text: string)

  datatype Location = LabDirectory | InRevision(number: int, name: Name) | Elsewhere(text: string)

  datatype Manifest = Manifest(
    wellFormed: bool,
    labId: string,
    sourceRevision: int,
    dialogueHead: Hash,
    specHash: Hash,
    configHash: Hash,
    labDir: Location,
    labSpec: Location,
    labYaml: Location,
    resolvedManifest: Location,
    body: string)

  datatype Validation = Validation(dialogueHead: Hash, specHash: Hash, configHash: Hash, manifestHash: Hash)

  datatype Metadata = Metadata(revision: int, specHash: Hash, configHash: Hash, manifestHash: Hash, dialogueHead: Hash)

  /** The CURRENT pointer, and the reference a frozen revision is known by. */
  datatype Ref = Ref(revision: int, path: RevisionPath, specHash: Hash, configHash: Hash, manifestHash: Hash,
                     dialogueHead: Hash)

  /**
   `Unpaired` is a JavaScript string with lone surrogates: `number` tells apart
   the ones the encoder turns into the same `repaired` characters.
   */
  datatype Text =
    | Plain(chars: string)
    | Unpaired(repaired: string, number: int)
    | ManifestText(manifest: Manifest, layout: nat)
    | ValidationText(validation: Validation)
    | MetadataText(metadata: Metadata)
    | PointerText(pointer: Ref)

  datatype Bytes = Utf8(text: Text) | NotUtf8(junk: int)

  datatype Name = SpecFile | ConfigFile | ManifestFile | ValidationFile | MetadataFile | CurrentFile | Scratch(uuid: nat)

  datatype Dir = Root | Draft | Temp(uuid: nat) | Final(number: int)

  type Files = map<Name, Bytes>
  type Disk = map<Dir, Files>

  datatype FrozenRevision = FrozenRevision(ref: Ref, spec: Text, config: Text, manifest: Manifest,
                                           validation: Validation)

  datatype Code =
    | LabNotFound | RevisionExists | RevisionMissing | HashMismatch | InvalidSource | InvalidCurrent
    | InvalidManifest | Io

  const REVISION_FILES := {SpecFile, ConfigFile, ManifestFile, ValidationFile, MetadataFile}

  /** `TextEncoder.encode`: every lone surrogate becomes U+FFFD. */
  function Encode(text: Text): Bytes {
    match text
    case Unpaired(repaired, _) => Utf8(Plain(repaired))
    case _ => Utf8(text)
  }

  predicate WellFormed(text: Text) { !text.Unpaired? }

  /** Encoding loses nothing exactly for well-formed texts. */
  lemma EncodeIsFaithful(text: Text)
    ensures Encode(text) == Utf8(text) <==> WellFormed(text)
    ensures Encode(text).Utf8? && WellFormed(Encode(text).text)
  {
  }

  function Canonical(manifest: Manifest): Text { ManifestText(manifest, 0) }

  function FilesOf(disk: Disk, dir: Dir): Files {
    if dir in disk then disk[dir] else map[]
  }

  function Entry(files: Files, name: Name): Option<Bytes> {
    if name in files then Some(files[name]) else None
  }

  // ---- Readers ------------------------------------------------------------------

  const MAX_SAFE_INTEGER := 0x1F_FFFF_FFFF_FFFF

  predicate PositiveSafe(n: int) { 0 < n <= MAX_SAFE_INTEGER }

  predicate ValidRef(ref: Ref) {
    && PositiveSafe(ref.revision) && ref.path != OtherPath("")
    && ref.specHash.Hex? && ref.configHash.Hex? && ref.manifestHash.Hex? && ref.dialogueHead.Hex?
  }

  predicate ValidMetadata(metadata: Metadata) {
    && PositiveSafe(metadata.revision)
    && metadata.specHash.Hex? && metadata.configHash.Hex? && metadata.manifestHash.Hex? && metadata.dialogueHead.Hex?
  }

  predicate ValidValidation(validation: Validation) {
    && validation.dialogueHead.Hex? && validation.specHash.Hex?
    && validation.configHash.Hex? && validation.manifestHash.Hex?
  }

  predicate IsJson(bytes: Bytes) { bytes.Utf8? && !bytes.text.Plain? && !bytes.text.Unpaired? }

  /** `validateRevisionManifest`: the manifest is about exactly this revision of this Lab. */
  predicate ManifestFits(labId: string, manifest: Manifest, revision: int, specHash: Hash, configHash: Hash,
                         dialogueHead: Hash)
  {
    && manifest.labId == labId
    && manifest.sourceRevision == revision
    && manifest.dialogueHead == dialogueHead
    && manifest.specHash == specHash
    && manifest.configHash == configHash
    && manifest.labDir == LabDirectory
    && manifest.labSpec == InRevision(revision, SpecFile)
    && manifest.labYaml == InRevision(revision, ConfigFile)
    && manifest.resolvedManifest == InRevision(revision, ManifestFile)
  }

  function ParseFrozen(sha: Bytes -> int, labId: string, files: Files, pointer: Ref): Result<FrozenRevision, Code>
    requires REVISION_FILES <= files.Keys
  {
    var specBytes, configBytes := files[SpecFile], files[ConfigFile];
    if !IsJson(files[MetadataFile]) || !IsJson(files[ManifestFile]) || !IsJson(files[ValidationFile]) then
      Err(InvalidCurrent)
    else if !files[MetadataFile].text.MetadataText? || !ValidMetadata(files[MetadataFile].text.metadata)
            || files[MetadataFile].text.metadata.revision != pointer.revision then
      Err(InvalidCurrent)
    else
      var metadata := files[MetadataFile].text.metadata;
      if metadata.specHash != pointer.specHash || metadata.configHash != pointer.configHash
         || metadata.manifestHash != pointer.manifestHash || metadata.dialogueHead != pointer.dialogueHead then
        Err(HashMismatch)
      else if !files[ManifestFile].text.ManifestText? || !files[ManifestFile].text.manifest.wellFormed then
        Err(InvalidCurrent)
      else
        var manifest := files[ManifestFile].text.manifest;
        var specHash, configHash := Hex(sha(specBytes)), Hex(sha(configBytes));
        var manifestHash := Hex(sha(Utf8(Canonical(manifest))));
        if files[ManifestFile].text != Canonical(manifest) then Err(HashMismatch)
        else if specHash != metadata.specHash || configHash != metadata.configHash
                || manifestHash != metadata.manifestHash then
          Err(HashMismatch)
        else if !files[ValidationFile].text.ValidationText?
                || !ValidValidation(files[ValidationFile].text.validation) then
          Err(InvalidCurrent)
        else
          var validation := files[ValidationFile].text.validation;
          if validation != Validation(pointer.dialogueHead, specHash, configHash, manifestHash) then Err(HashMismatch)
          else if !ManifestFits(labId, manifest, pointer.revision, specHash, configHash, pointer.dialogueHead)
                  || specBytes.NotUtf8? || configBytes.NotUtf8? then
            Err(InvalidSource)
          else Ok(FrozenRevision(Ref(pointer.revision, pointer.path, specHash, configHash, manifestHash,
                                     pointer.dialogueHead),
                                 specBytes.text, configBytes.text, manifest, validation))
  }

  function ReadFrozen(sha: Bytes -> int, labId: string, disk: Disk, pointer: Ref): Result<FrozenRevision, Code> {
    var files := FilesOf(disk, Final(pointer.revision));
    if pointer.path != Revisions(pointer.revision) then Err(InvalidCurrent)
    else if !(REVISION_FILES <= files.Keys) then Err(RevisionMissing)
    else ParseFrozen(sha, labId, files, pointer)
  }

  function ReadCurrent(sha: Bytes -> int, labId: string, disk: Disk): Result<FrozenRevision, Code> {
    if Root !in disk then Err(LabNotFound)
    else match Entry(disk[Root], CurrentFile)
      case Some(Utf8(PointerText(pointer))) =>
        if ValidRef(pointer) then ReadFrozen(sha, labId, disk, pointer) else Err(InvalidCurrent)
      case _ => Err(InvalidCurrent)
  }

  function ReadRevisionAt(sha: Bytes -> int, labId: string, disk: Disk, revision: int): Result<FrozenRevision, Code> {
    match Entry(FilesOf(disk, Final(revision)), MetadataFile)
    case None => Err(RevisionMissing)
    case Some(Utf8(MetadataText(metadata))) =>
      if !ValidMetadata(metadata) || metadata.revision != revision then Err(InvalidCurrent)
      else ReadFrozen(sha, labId, disk, Ref(revision, Revisions(revision), metadata.specHash, metadata.configHash,
                                            metadata.manifestHash, metadata.dialogueHead))
    case Some(_) => Err(InvalidCurrent)
  }

  // ---- What one commit means ---------------------------------------------------------

  /** The texts the caller names and the bytes it hands over; a draft is read twice, so they may differ. */
  datatype Input = Input(revision: int, specBytes: Bytes, configBytes: Bytes, spec: Text, config: Text,
                         manifest: Manifest, dialogueHead: Hash)

  predicate Faithful(input: Input) {
    input.specBytes == Utf8(input.spec) && input.configBytes == Utf8(input.config)
  }

  function PointerOf(sha: Bytes -> int, input: Input): Ref {
    Ref(input.revision, Revisions(input.revision), Hex(sha(input.specBytes)), Hex(sha(input.configBytes)),
        Hex(sha(Utf8(Canonical(input.manifest)))), input.dialogueHead)
  }

  /** The five files the commit writes before it renames its directory into place. */
  function Rendered(sha: Bytes -> int, input: Input): Files {
    var ref := PointerOf(sha, input);
    map[SpecFile := input.specBytes,
        ConfigFile := input.configBytes,
        ManifestFile := Utf8(Canonical(input.manifest)),
        ValidationFile := Utf8(ValidationText(Validation(input.dialogueHead, ref.specHash, ref.configHash,
                                                         ref.manifestHash))),
        MetadataFile := Utf8(MetadataText(Metadata(input.revision, ref.specHash, ref.configHash, ref.manifestHash,
                                                   input.dialogueHead)))]
  }

  /** The revision is the input's: its reference, its manifest, and the texts it named or the bytes it handed over. */
  predicate IsNew(sha: Bytes -> int, input: Input, frozen: FrozenRevision) {
    && frozen.ref == PointerOf(sha, input) && frozen.manifest == input.manifest
    && ((frozen.spec == input.spec && frozen.config == input.config)
        || (Utf8(frozen.spec) == input.specBytes && Utf8(frozen.config) == input.configBytes))
  }

  predicate Holds(files: Files, rendered: Files) {
    forall name :: name in rendered ==> name in files && files[name] == rendered[name]
  }

  /** Revision `n` is on disk: its directory exists and is not empty. */
  predicate Occupied(disk: Disk, n: int) { FilesOf(disk, Final(n)) != map[] }

  /**
   What one freeze may do to the disk, whether it returns, fails, or stops:
   CURRENT reads as before or as exactly the new revision, and no revision
   already on disk changes.
   */
  ghost predicate CommitStep(sha: Bytes -> int, labId: string, before: Disk, after: Disk, input: Input) {
    && (forall frozen :: ReadCurrent(sha, labId, after) == Ok(frozen) ==>
          ReadCurrent(sha, labId, before) == Ok(frozen) || IsNew(sha, input, frozen))
    && (ReadCurrent(sha, labId, before).Ok? ==> ReadCurrent(sha, labId, after).Ok?)
    && (forall n :: Occupied(before, n) ==> FilesOf(after, Final(n)) == FilesOf(before, Final(n)))
    && (forall n :: n != input.revision ==> FilesOf(after, Final(n)) == FilesOf(before, Final(n)))
  }

  /** Faithful input leaves no freedom: the new revision is one value. */
  lemma NewIsUnique(sha: Bytes -> int, labId: string, input: Input, disk: Disk, left: FrozenRevision, right: FrozenRevision)
    requires Faithful(input) && IsNew(sha, input, left) && IsNew(sha, input, right)
    requires ReadCurrent(sha, labId, disk) == Ok(left) || ReadRevisionAt(sha, labId, disk, input.revision) == Ok(left)
    requires ReadCurrent(sha, labId, disk) == Ok(right) || ReadRevisionAt(sha, labId, disk, input.revision) == Ok(right)
    ensures left == right && left.spec == input.spec && left.config == input.config
  {
  }

  /** Whatever pointer reads the files the commit wrote reads the input's revision. */
  lemma RenderedReadsAsNew(sha: Bytes -> int, labId: string, disk: Disk, input: Input, pointer: Ref, frozen: FrozenRevision)
    requires Holds(FilesOf(disk, Final(input.revision)), Rendered(sha, input)) && pointer.revision == input.revision
    requires ReadFrozen(sha, labId, disk, pointer) == Ok(frozen)
    ensures IsNew(sha, input, frozen)
    ensures Utf8(frozen.spec) == input.specBytes && Utf8(frozen.config) == input.configBytes
  {
  }

  /** A revision can be frozen from this input: the schemas, the manifest's anchors and the encodings all hold. */
  predicate Freezable(sha: Bytes -> int, labId: string, input: Input) {
    var ref := PointerOf(sha, input);
    && PositiveSafe(input.revision) && input.dialogueHead.Hex? && input.manifest.wellFormed
    && ManifestFits(labId, input.manifest, input.revision, ref.specHash, ref.configHash, input.dialogueHead)
    && input.specBytes.Utf8? && input.configBytes.Utf8?
  }

  /** What the commit wrote reads back exactly when its input is one a revision can hold. */
  lemma RenderedReadsBack(sha: Bytes -> int, labId: string, disk: Disk, input: Input)
    requires Holds(FilesOf(disk, Final(input.revision)), Rendered(sha, input))
    ensures ReadFrozen(sha, labId, disk, PointerOf(sha, input)).Ok? <==> Freezable(sha, labId, input)
  {
  }

  /** The commit that would have written a revision. */
  function CommitOf(frozen: FrozenRevision): Input {
    Input(frozen.ref.revision, Utf8(frozen.spec), Utf8(frozen.config), frozen.spec, frozen.config, frozen.manifest,
          frozen.ref.dialogueHead)
  }

  /** A revision is read exactly where a commit of it, one the checks allow, could have written its files. */
  lemma ReadsExactlyCommits(sha: Bytes -> int, labId: string, disk: Disk, pointer: Ref, frozen: FrozenRevision)
    ensures ReadFrozen(sha, labId, disk, pointer) == Ok(frozen) <==>
              && frozen.ref == pointer == PointerOf(sha, CommitOf(frozen))
              && frozen.validation
                 == Validation(pointer.dialogueHead, pointer.specHash, pointer.configHash, pointer.manifestHash)
              && Freezable(sha, labId, CommitOf(frozen))
              && Holds(FilesOf(disk, Final(pointer.revision)), Rendered(sha, CommitOf(frozen)))
  {
  }

  /** The manifest of a revision of this Lab: all its anchors are the revision's own. */
  lemma ManifestFitsExactly(labId: string, manifest: Manifest, revision: int, specHash: Hash, configHash: Hash,
                            dialogueHead: Hash)
    ensures ManifestFits(labId, manifest, revision, specHash, configHash, dialogueHead) <==>
              manifest == manifest.(
                labId := labId, sourceRevision := revision, dialogueHead := dialogueHead, specHash := specHash,
                configHash := configHash, labDir := LabDirectory, labSpec := InRevision(revision, SpecFile),
                labYaml := InRevision(revision, ConfigFile), resolvedManifest := InRevision(revision, ManifestFile))
  {
  }

  /** A number names a revision exactly if it is a positive safe integer, and CURRENT holds only pointers of hashes. */
  lemma PointersExactly(ref: Ref)
    ensures PositiveSafe(ref.revision) <==> 1 <= ref.revision < 0x20_0000_0000_0000
    ensures ValidRef(ref) <==>
              && 1 <= ref.revision < 0x20_0000_0000_0000 && ref.path != OtherPath("")
              && forall hash :: hash in {ref.specHash, ref.configHash, ref.manifestHash, ref.dialogueHead} ==> hash.Hex?
  {
  }

  /** A text changed behind a committed revision is found by its hash, whatever it was changed to. */
  lemma ChangedTextIsFound(sha: Bytes -> int, labId: string, disk: Disk, input: Input, name: Name, bytes: Bytes)
    requires Freezable(sha, labId, input) && name in {SpecFile, ConfigFile}
    requires FilesOf(disk, Final(input.revision)) == Rendered(sha, input)[name := bytes]
    requires sha(bytes) != sha(Rendered(sha, input)[name])
    ensures ReadFrozen(sha, labId, disk, PointerOf(sha, input)) == Err(HashMismatch)
  {
  }

  /** What CURRENT reads: nothing without a Lab, a refusal for anything but a valid pointer, else the revision it names. */
  lemma CurrentReadsItsPointer(sha: Bytes -> int, labId: string, disk: Disk)
    ensures Root !in disk ==> ReadCurrent(sha, labId, disk) == Err(LabNotFound)
    ensures forall pointer | ValidRef(pointer) && Root in disk && CurrentFile in disk[Root]
                             && disk[Root][CurrentFile] == Utf8(PointerText(pointer)) ::
              ReadCurrent(sha, labId, disk) == ReadFrozen(sha, labId, disk, pointer)
    ensures Root in disk && ReadCurrent(sha, labId, disk).Ok? ==>
              CurrentFile in disk[Root]
              && disk[Root][CurrentFile] == Utf8(PointerText(ReadCurrent(sha, labId, disk).value.ref))
  {
  }

  /** The readers agree: a revision read through any pointer is the one its own number reads. */
  lemma ReadersAgree(sha: Bytes -> int, labId: string, disk: Disk, pointer: Ref, frozen: FrozenRevision)
    requires ReadFrozen(sha, labId, disk, pointer) == Ok(frozen)
    ensures frozen.ref == pointer && ReadRevisionAt(sha, labId, disk, pointer.revision) == Ok(frozen)
  {
  }

  /**
   A number already frozen under other hashes is refused by the reader, with
   HASH_MISMATCH: the commit's own comparison of hashes never sees a difference.
   */
  lemma OtherBytesAreAMismatch(sha: Bytes -> int, labId: string, disk: Disk, input: Input, frozen: FrozenRevision)
    requires ReadRevisionAt(sha, labId, disk, input.revision) == Ok(frozen)
    ensures ReadFrozen(sha, labId, disk, PointerOf(sha, input))
            == if frozen.ref == PointerOf(sha, input) then Ok(frozen) else Err(HashMismatch)
  {
  }

  // ---- Chains of commits ---------------------------------------------------------------

  ghost predicate Chain(sha: Bytes -> int, labId: string, disks: seq<Disk>, inputs: seq<Input>) {
    && |disks| == |inputs| + 1
    && forall i :: 0 <= i < |inputs| ==> CommitStep(sha, labId, disks[i], disks[i + 1], inputs[i])
  }

  /**
   Over any sequence of freezes, finished or not, whatever CURRENT reads is the
   first revision or one some freeze was given, a new Lab's first freeze
   included; and once readable it stays readable.
   */
  lemma {:induction false} CurrentIsOldOrNew(sha: Bytes -> int, labId: string, disks: seq<Disk>, inputs: seq<Input>)
    requires Chain(sha, labId, disks, inputs)
    ensures var first, last := ReadCurrent(sha, labId, disks[0]), ReadCurrent(sha, labId, disks[|inputs|]);
            && (first.Ok? ==> last.Ok?)
            && (last.Ok? ==> last == first || exists i :: 0 <= i < |inputs| && IsNew(sha, inputs[i], last.value))
  {
    hide ReadCurrent, IsNew;
    if inputs != [] {
      var k := |inputs| - 1;
      assert CommitStep(sha, labId, disks[k], disks[k + 1], inputs[k]);
      CurrentIsOldOrNew(sha, labId, disks[..k + 1], inputs[..k]);
    }
  }

  /** Once frozen, a revision reads the same after any number of further freezes. */
  lemma {:induction false} RevisionNeverChanges(sha: Bytes -> int, labId: string, disks: seq<Disk>, inputs: seq<Input>,
                                                 n: int)
    requires Chain(sha, labId, disks, inputs) && Occupied(disks[0], n)
    ensures FilesOf(disks[|inputs|], Final(n)) == FilesOf(disks[0], Final(n))
    ensures ReadRevisionAt(sha, labId, disks[|inputs|], n) == ReadRevisionAt(sha, labId, disks[0], n)
  {
    if inputs != [] {
      var k := |inputs| - 1;
      assert CommitStep(sha, labId, disks[k], disks[k + 1], inputs[k]);
      RevisionNeverChanges(sha, labId, disks[..k + 1], inputs[..k], n);
    }
  }

  const WHITESPACE := {0x9, 0xA, 0xB, 0xC, 0xD, 0x20, 0xA0, 0x1680, 0x2000, 0x2001, 0x2002, 0x2003, 0x2004, 0x2005,
                       0x2006, 0x2007, 0x2008, 0x2009, 0x200A, 0x2028, 0x2029, 0x202F, 0x205F, 0x3000, 0xFEFF}

  /** `text.trim().length === 0` */
  predicate Blank(text: Text) {
    text.Plain? && forall c :: c in text.chars ==> c as int in WHITESPACE
  }

  // ---- The disk and the commit ------------------------------------------------------------

  datatype Outcome = Done | Exists | Failed

  /** The files of a directory without scratch files, whose names nothing ever reads. */
  function Visible(files: Files): Files {
    map name | name in files && !name.Scratch? :: files[name]
  }

  lemma VisibleIgnoresScratch(files: Files, uuid: nat, bytes: Bytes)
    ensures Visible(files[Scratch(uuid) := bytes]) == Visible(files)
    ensures Visible(files - {Scratch(uuid)}) == Visible(files)
  {
  }

  lemma VisiblePut(files: Files, name: Name, bytes: Bytes)
    requires !name.Scratch?
    ensures Visible(files[name := bytes]) == Visible(files)[name := bytes]
  {
  }

  /** Nothing but temporary directories differs. */
  ghost predicate OnlyTemps(before: Disk, after: Disk) {
    forall d: Dir :: !d.Temp? ==> ((d in after <==> d in before) && FilesOf(after, d) == FilesOf(before, d))
  }

  lemma SameWithout(before: Disk, after: Disk, dir: Dir)
    requires after - {dir} == before - {dir}
    ensures forall d :: d != dir ==> ((d in after <==> d in before) && FilesOf(after, d) == FilesOf(before, d))
    ensures dir.Temp? ==> OnlyTemps(before, after)
  {
    forall d | d != dir ensures (d in after <==> d in before) && FilesOf(after, d) == FilesOf(before, d) {
      assert d in after <==> d in after - {dir};
      assert d in before <==> d in before - {dir};
      assert d in after ==> (after - {dir})[d] == (before - {dir})[d];
    }
  }

  /** Every reader sees through temporary directories. */
  lemma ReadersIgnoreTemps(sha: Bytes -> int, labId: string, before: Disk, after: Disk, n: int, pointer: Ref)
    requires OnlyTemps(before, after)
    ensures ReadCurrent(sha, labId, after) == ReadCurrent(sha, labId, before)
    ensures ReadRevisionAt(sha, labId, after, n) == ReadRevisionAt(sha, labId, before, n)
    ensures ReadFrozen(sha, labId, after, pointer) == ReadFrozen(sha, labId, before, pointer)
  {
  }

  /** Making and removing temporary directories around a step leaves it a commit step. */
  lemma CommitStepAmongTemps(sha: Bytes -> int, labId: string, before: Disk, entered: Disk, left: Disk, after: Disk,
                             input: Input)
    requires OnlyTemps(before, entered) && CommitStep(sha, labId, entered, left, input) && OnlyTemps(left, after)
    ensures CommitStep(sha, labId, before, after, input)
  {
  }

  lemma StandingStillIsACommitStep(sha: Bytes -> int, labId: string, before: Disk, after: Disk, input: Input)
    requires OnlyTemps(before, after)
    ensures CommitStep(sha, labId, before, after, input)
  {
  }

  /** Renaming the finished directory into place: CURRENT still reads as before, or was unreadable for want of it. */
  lemma PlacingIsACommitStep(sha: Bytes -> int, labId: string, before: Disk, after: Disk, input: Input)
    requires !Occupied(before, input.revision)
    requires Holds(FilesOf(after, Final(input.revision)), Rendered(sha, input))
    requires forall d: Dir :: !d.Temp? && d != Final(input.revision) ==>
               ((d in after <==> d in before) && FilesOf(after, d) == FilesOf(before, d))
    ensures CommitStep(sha, labId, before, after, input)
  {
  }

  /** Replacing CURRENT by a pointer that was just read back. */
  lemma PublishingIsACommitStep(sha: Bytes -> int, labId: string, before: Disk, placed: Disk, after: Disk,
                                input: Input, frozen: FrozenRevision)
    requires CommitStep(sha, labId, before, placed, input) && Root in placed && Root in after
    requires forall n: int :: FilesOf(after, Final(n)) == FilesOf(placed, Final(n))
    requires ReadFrozen(sha, labId, placed, PointerOf(sha, input)) == Ok(frozen) && IsNew(sha, input, frozen)
    requires var was, now := Visible(placed[Root]), Visible(after[Root]);
             now == was || now == was[CurrentFile := Utf8(PointerText(PointerOf(sha, input)))]
    ensures CommitStep(sha, labId, before, after, input)
    ensures Entry(Visible(after[Root]), CurrentFile) == Some(Utf8(PointerText(PointerOf(sha, input)))) ==>
              ReadCurrent(sha, labId, after) == Ok(frozen)
  {
    hide ParseFrozen, IsNew;
    assert Entry(after[Root], CurrentFile) == Entry(Visible(after[Root]), CurrentFile);
    assert Entry(placed[Root], CurrentFile) == Entry(Visible(placed[Root]), CurrentFile);
    assert ValidRef(PointerOf(sha, input)) by { ReadRefIsValid(sha, labId, placed, PointerOf(sha, input)); }
  }

  lemma ReadRefIsValid(sha: Bytes -> int, labId: string, disk: Disk, pointer: Ref)
    requires ReadFrozen(sha, labId, disk, pointer).Ok?
    ensures ValidRef(pointer)
  {
  }

  /** The revision is already frozen with exactly the input's texts. */
  predicate Agrees(sha: Bytes -> int, labId: string, disk: Disk, input: Input) {
    match ReadFrozen(sha, labId, disk, PointerOf(sha, input))
    case Ok(frozen) =>
      frozen.spec == input.spec && frozen.config == input.config && Canonical(frozen.manifest) == Canonical(input.manifest)
    case Err(_) => false
  }

  /** What decides an undisturbed freeze. */
  predicate Acceptable(sha: Bytes -> int, labId: string, disk: Disk, input: Input) {
    if Occupied(disk, input.revision) then Agrees(sha, labId, disk, input) else Freezable(sha, labId, input)
  }

  /** What is already frozen as the input fits the input's own manifest checks. */
  lemma AgreeingFits(sha: Bytes -> int, labId: string, disk: Disk, input: Input)
    requires Agrees(sha, labId, disk, input)
    ensures var ref := PointerOf(sha, input);
            input.manifest.wellFormed
            && ManifestFits(labId, input.manifest, input.revision, ref.specHash, ref.configHash, input.dialogueHead)
  {
  }

  lemma AgreeingIsNew(sha: Bytes -> int, labId: string, before: Disk, after: Disk, input: Input, frozen: FrozenRevision)
    requires FilesOf(after, Final(input.revision)) == FilesOf(before, Final(input.revision))
    requires Agrees(sha, labId, before, input) && ReadFrozen(sha, labId, after, PointerOf(sha, input)) == Ok(frozen)
    ensures IsNew(sha, input, frozen) && frozen.spec == input.spec && frozen.config == input.config
  {
  }

  lemma SameRevisionReadsSame(sha: Bytes -> int, labId: string, before: Disk, after: Disk, pointer: Ref)
    requires FilesOf(after, Final(pointer.revision)) == FilesOf(before, Final(pointer.revision))
    ensures ReadFrozen(sha, labId, after, pointer) == ReadFrozen(sha, labId, before, pointer)
  {
  }

  lemma CommitStepKeepsOccupied(sha: Bytes -> int, labId: string, before: Disk, after: Disk, input: Input)
    requires CommitStep(sha, labId, before, after, input) && Occupied(before, input.revision)
    ensures FilesOf(after, Final(input.revision)) == FilesOf(before, Final(input.revision))
  {
  }

  function ConfigInput(revision: int, spec: Text, config: Text, manifest: Manifest, dialogueHead: Hash): Input {
    Input(revision, Encode(spec), Encode(config), spec, config, manifest, dialogueHead)
  }

  function BytesOf(files: Files, name: Name): Bytes {
    if name in files then files[name] else NotUtf8(0)
  }

  function TextOf(bytes: Bytes): Text {
    if bytes.Utf8? then bytes.text else Plain("")
  }

  /** The texts of the first reading of the draft, and the bytes of the second. */
  function DraftInput(revision: int, manifest: Manifest, dialogueHead: Hash, first: Files, second: Files): Input {
    Input(revision, BytesOf(second, SpecFile), BytesOf(second, ConfigFile), TextOf(BytesOf(first, SpecFile)),
          TextOf(BytesOf(first, ConfigFile)), manifest, dialogueHead)
  }

  /** Editing the draft changes nothing a reader of revisions sees. */
  lemma DraftIsNotRead(sha: Bytes -> int, labId: string, before: Disk, after: Disk, input: Input)
    requires before - {Draft} == after - {Draft}
    ensures ReadCurrent(sha, labId, after) == ReadCurrent(sha, labId, before)
    ensures forall n: int :: FilesOf(after, Final(n)) == FilesOf(before, Final(n))
    ensures CommitStep(sha, labId, before, after, input)
    ensures Acceptable(sha, labId, after, input) <==> Acceptable(sha, labId, before, input)
  {
    hide ParseFrozen, IsNew;
    SameWithout(before, after, Draft);
    assert forall n: int :: FilesOf(after, Final(n)) == FilesOf(before, Final(n));
    assert FilesOf(after, Root) == FilesOf(before, Root);
  }

  lemma CommitStepAfterDraft(sha: Bytes -> int, labId: string, before: Disk, entered: Disk, after: Disk, input: Input)
    requires before - {Draft} == entered - {Draft} && CommitStep(sha, labId, entered, after, input)
    ensures CommitStep(sha, labId, before, after, input)
    ensures Acceptable(sha, labId, entered, input) <==> Acceptable(sha, labId, before, input)
    ensures Occupied(before, input.revision) <==> Occupied(entered, input.revision)
  {
    DraftIsNotRead(sha, labId, before, entered, input);
    hide ReadCurrent, IsNew;
  }

  class ArtifactStore {
    const sha: Bytes -> int
    const labId: string
    var disk: Disk
    /** False once the process has stopped: no file step after that takes effect. */
    var alive: bool
    /** Some step stopped the process, failed, or drew a random name that was taken. */
    var faulted: bool

    constructor (sha: Bytes -> int, labId: string, disk: Disk)
      ensures this.sha == sha && this.labId == labId && this.disk == disk && alive && !faulted
    {
      this.sha, this.labId, this.disk, this.alive, this.faulted := sha, labId, disk, true, false;
    }

    // Every file step may stop the process or fail without effect.

    method Proceeds() returns (ok: bool)
      modifies this`alive, this`faulted
      ensures ok ==> alive && faulted == old(faulted)
      ensures !ok ==> faulted
    {
      var stop: bool := *;
      var fail: bool := *;
      if stop {
        alive := false;
      }
      ok := alive && !fail;
      if !ok {
        faulted := true;
      }
    }

    method MakeDirectory(dir: Dir) returns (r: Outcome)
      modifies this
      ensures r.Done? ==> Root in old(disk) && dir !in old(disk) && disk == old(disk)[dir := map[]]
      ensures !r.Done? ==> disk == old(disk)
      ensures r.Failed? ==> faulted || Root !in old(disk)
      ensures r.Exists? ==> dir in old(disk)
      ensures old(faulted) ==> faulted
    {
      var ok := Proceeds();
      if !ok {
        return Failed;
      }
      if Root !in disk {
        return Failed;
      }
      if dir in disk {
        return Exists;
      }
      disk := disk[dir := map[]];
      r := Done;
    }

    /** Renaming a directory: onto nothing or onto an empty directory only. */
    method RenameDirectory(from: Dir, to: Dir) returns (r: Outcome)
      modifies this
      ensures r.Done? ==> from in old(disk) && FilesOf(old(disk), to) == map[]
                          && disk == (old(disk) - {from})[to := old(disk)[from]]
      ensures r.Exists? ==> FilesOf(old(disk), to) != map[]
      ensures !r.Done? ==> disk == old(disk)
      ensures r.Failed? ==> faulted || from !in old(disk)
      ensures old(faulted) ==> faulted
    {
      var ok := Proceeds();
      if !ok || from !in disk {
        return Failed;
      }
      if to in disk && disk[to] != map[] {
        return Exists;
      }
      disk := (disk - {from})[to := disk[from]];
      r := Done;
    }

    method RemoveDirectory(dir: Dir) returns (ok: bool)
      modifies this
      ensures disk == old(disk) || disk == old(disk) - {dir}
      ensures !ok ==> faulted
      ensures old(faulted) ==> faulted
    {
      ok := Proceeds();
      if ok {
        disk := disk - {dir};
      }
    }

    method SetFile(dir: Dir, name: Name, bytes: Bytes)
      requires dir in disk
      modifies this`disk
      ensures disk == old(disk)[dir := old(disk)[dir][name := bytes]]
    {
      disk := disk[dir := disk[dir][name := bytes]];
    }

    /** Creating a scratch file exclusively and writing it; one that does not finish may hold any bytes. */
    method WriteScratch(dir: Dir, uuid: nat, bytes: Bytes) returns (ok: bool)
      requires dir in disk
      modifies this
      ensures dir in disk && disk - {dir} == old(disk) - {dir} && Visible(disk[dir]) == Visible(old(disk)[dir])
      ensures ok ==> Entry(disk[dir], Scratch(uuid)) == Some(bytes)
      ensures !ok ==> faulted
      ensures old(faulted) ==> faulted
    {
      ok := Proceeds();
      if ok && Scratch(uuid) in disk[dir] {
        ok, faulted := false, true;
      }
      if !ok {
        return;
      }
      var torn: Bytes := *;
      VisibleIgnoresScratch(disk[dir], uuid, torn);
      disk := disk[dir := disk[dir][Scratch(uuid) := torn]];
      ok := Proceeds();
      if ok {
        VisibleIgnoresScratch(disk[dir], uuid, bytes);
        disk := disk[dir := disk[dir][Scratch(uuid) := bytes]];
        ok := Proceeds();
      }
    }

    /** The `finally` removal of the scratch file; when it fails, the whole write throws. */
    method RemoveScratch(dir: Dir, uuid: nat) returns (ok: bool)
      requires dir in disk
      modifies this
      ensures dir in disk && disk - {dir} == old(disk) - {dir} && Visible(disk[dir]) == Visible(old(disk)[dir])
      ensures !ok ==> faulted
      ensures old(faulted) ==> faulted
    {
      ok := Proceeds();
      if ok {
        VisibleIgnoresScratch(disk[dir], uuid, NotUtf8(0));
        disk := disk[dir := disk[dir] - {Scratch(uuid)}];
      }
    }

    /**
     `durableWriteFile`: the named file keeps its content or holds exactly these
     bytes, never a part of them, and nothing else a reader sees changes.
     */
    method DurableWriteFile(dir: Dir, name: Name, bytes: Bytes, replace: bool) returns (ok: bool)
      requires !name.Scratch?
      modifies this
      ensures disk - {dir} == old(disk) - {dir} && (dir in old(disk) ==> dir in disk)
      ensures var was, now := Visible(FilesOf(old(disk), dir)), Visible(FilesOf(disk, dir));
              && (now == was || now == was[name := bytes])
              && (!replace && name in was ==> !ok && now == was)
              && (ok ==> dir in disk && now == was[name := bytes])
      ensures !ok ==> faulted || (!replace && name in Visible(FilesOf(old(disk), dir)))
      ensures old(faulted) ==> faulted
    {
      ok := Proceeds();
      if !ok {
        return;
      }
      if dir !in disk {
        disk := disk[dir := map[]];
      }
      assert disk - {dir} == old(disk) - {dir};
      var uuid: nat := *;
      ok := WriteScratch(dir, uuid, bytes);
      if !ok {
        return;
      }
      ok := Proceeds();
      if ok {
        ok := replace || name !in disk[dir];
        if ok {
          var written := disk[dir][name := disk[dir][Scratch(uuid)]];
          VisiblePut(disk[dir], name, disk[dir][Scratch(uuid)]);
          VisibleIgnoresScratch(written, uuid, bytes);
          disk := disk[dir := if replace then written - {Scratch(uuid)} else written];
          ok := Proceeds();
        }
      }
      var removed := RemoveScratch(dir, uuid);
      ok := ok && removed;
    }

    /** The five files of the revision, in the temporary directory. */
    method WriteRevisionFiles(temporary: Dir, input: Input) returns (ok: bool)
      requires temporary.Temp? && temporary in disk && disk[temporary] == map[]
      modifies this
      ensures temporary in disk && disk - {temporary} == old(disk) - {temporary}
      ensures ok ==> Visible(disk[temporary]) == Rendered(sha, input)
      ensures !ok ==> faulted
      ensures old(faulted) ==> faulted
    {
      var rendered := Rendered(sha, input);
      ok := DurableWriteFile(temporary, SpecFile, input.specBytes, false);
      if !ok { return; }
      ok := DurableWriteFile(temporary, ConfigFile, input.configBytes, false);
      if !ok { return; }
      ok := DurableWriteFile(temporary, ManifestFile, rendered[ManifestFile], false);
      if !ok { return; }
      ok := DurableWriteFile(temporary, ValidationFile, rendered[ValidationFile], false);
      if !ok { return; }
      ok := DurableWriteFile(temporary, MetadataFile, rendered[MetadataFile], false);
    }

    /** The body of the commit between making and removing its temporary directory. */
    method CommitFrom(temporary: Dir, input: Input) returns (r: Result<FrozenRevision, Code>)
      requires temporary.Temp? && Root in disk && temporary in disk && disk[temporary] == map[]
      modifies this
      ensures CommitStep(sha, labId, old(disk), disk, input)
      ensures r.Ok? ==>
                && ReadCurrent(sha, labId, disk) == r && ReadFrozen(sha, labId, disk, PointerOf(sha, input)) == r
                && (if Occupied(old(disk), input.revision) then Agrees(sha, labId, old(disk), input)
                    else Holds(FilesOf(disk, Final(input.revision)), Rendered(sha, input)))
      ensures Occupied(old(disk), input.revision) && !Agrees(sha, labId, old(disk), input) ==>
                r.Err? && OnlyTemps(old(disk), disk)
      ensures r.Ok? ==> Acceptable(sha, labId, old(disk), input)
      ensures r.Err? ==> faulted || !Acceptable(sha, labId, old(disk), input)
      ensures old(faulted) ==> faulted
    {
      hide ReadFrozen, ReadCurrent, IsNew, CommitStep;
      var pointer := PointerOf(sha, input);
      StandingStillIsACommitStep(sha, labId, disk, disk, input);
      if Agrees(sha, labId, disk, input) {
        AgreeingFits(sha, labId, disk, input);
      }
      if !input.manifest.wellFormed {
        return Err(InvalidManifest);
      }
      if !ManifestFits(labId, input.manifest, input.revision, pointer.specHash, pointer.configHash, input.dialogueHead) {
        return Err(InvalidSource);
      }
      var ok := WriteRevisionFiles(temporary, input);
      SameWithout(old(disk), disk, temporary);
      ReadersIgnoreTemps(sha, labId, old(disk), disk, input.revision, pointer);
      assert !Final(input.revision).Temp?;
      StandingStillIsACommitStep(sha, labId, old(disk), disk, input);
      if !ok {
        return Err(Io);
      }
      ok := Proceeds();
      if !ok {
        return Err(Io);
      }
      var renamed := RenameDirectory(temporary, Final(input.revision));
      if renamed.Failed? {
        return Err(Io);
      }
      var created := renamed.Done?;
      if created {
        assert Holds(FilesOf(disk, Final(input.revision)), Rendered(sha, input));
        PlacingIsACommitStep(sha, labId, old(disk), disk, input);
        ok := Proceeds();
        if !ok {
          return Err(Io);
        }
      }
      ghost var placed := disk;
      r := ReadBackAndPublish(input, created, old(disk));
      assert FilesOf(disk, Final(input.revision)) == FilesOf(placed, Final(input.revision));
      SameRevisionReadsSame(sha, labId, placed, disk, pointer);
    }

    /** The second half: read the directory back, compare, then replace CURRENT. */
    method ReadBackAndPublish(input: Input, created: bool, ghost before: Disk) returns (r: Result<FrozenRevision, Code>)
      requires Root in disk && CommitStep(sha, labId, before, disk, input)
      requires created ==> Holds(FilesOf(disk, Final(input.revision)), Rendered(sha, input))
      modifies this
      ensures CommitStep(sha, labId, before, disk, input)
      ensures forall d :: d != Root ==> ((d in disk <==> d in old(disk)) && FilesOf(disk, d) == FilesOf(old(disk), d))
      ensures r.Ok? ==> ReadCurrent(sha, labId, disk) == r && ReadFrozen(sha, labId, old(disk), PointerOf(sha, input)) == r
      ensures !created && !Agrees(sha, labId, old(disk), input) ==> r.Err? && disk == old(disk)
      ensures r.Ok? && !created ==> Agrees(sha, labId, old(disk), input)
      ensures r.Err? ==>
                faulted || (if created then !Freezable(sha, labId, input) else !Agrees(sha, labId, old(disk), input))
      ensures r.Ok? && created ==> Freezable(sha, labId, input)
      ensures old(faulted) ==> faulted
    {
      hide ParseFrozen, ReadFrozen, ReadCurrent, CommitStep;
      var pointer := PointerOf(sha, input);
      var ok := Proceeds();
      if !ok {
        return Err(Io);
      }
      if created {
        RenderedReadsBack(sha, labId, disk, input);
      }
      r := ReadFrozen(sha, labId, disk, pointer);
      if r.Err? {
        return;
      }
      var committed := r.value;
      ReadersAgree(sha, labId, disk, pointer, committed);
      if committed.ref.specHash != pointer.specHash || committed.ref.configHash != pointer.configHash
         || committed.ref.manifestHash != pointer.manifestHash || committed.ref.dialogueHead != input.dialogueHead {
        return Err(RevisionExists);
      }
      if !created && (committed.spec != input.spec || committed.config != input.config
                      || Canonical(committed.manifest) != Canonical(input.manifest)) {
        return Err(RevisionExists);
      }
      if created {
        RenderedReadsAsNew(sha, labId, disk, input, pointer, committed);
      }
      ghost var placed := disk;
      ok := DurableWriteFile(Root, CurrentFile, Utf8(PointerText(pointer)), true);
      SameWithout(placed, disk, Root);
      PublishingIsACommitStep(sha, labId, before, placed, disk, input, committed);
      if !ok {
        return Err(Io);
      }
    }

    /**
     `freezeRevision`: whatever stops it, the disk has made one commit step; on
     success every reader returns exactly what it returned.
     */
    method FreezeRevision(input: Input) returns (r: Result<FrozenRevision, Code>)
      modifies this
      ensures CommitStep(sha, labId, old(disk), disk, input)
      ensures r.Ok? ==>
                && ReadCurrent(sha, labId, disk) == r && ReadRevisionAt(sha, labId, disk, input.revision) == r
                && IsNew(sha, input, r.value)
                && (if Occupied(old(disk), input.revision)
                    then r.value.spec == input.spec && r.value.config == input.config
                    else Utf8(r.value.spec) == input.specBytes && Utf8(r.value.config) == input.configBytes)
      ensures Occupied(old(disk), input.revision) && !Agrees(sha, labId, old(disk), input) ==>
                r.Err? && OnlyTemps(old(disk), disk)
      ensures r.Ok? ==> Acceptable(sha, labId, old(disk), input)
      ensures r.Err? ==> faulted || Root !in old(disk) || !Acceptable(sha, labId, old(disk), input)
      ensures old(faulted) ==> faulted
    {
      hide ReadFrozen, ReadCurrent, ReadRevisionAt, ParseFrozen, CommitStep, IsNew;
      ghost var before, pointer := disk, PointerOf(sha, input);
      var uuid: nat := *;
      var made := MakeDirectory(Temp(uuid));
      assert made.Done? ==> Root in disk && disk - {Temp(uuid)} == before;
      if !made.Done? {
        faulted := faulted || made.Exists?;
        StandingStillIsACommitStep(sha, labId, before, disk, input);
        return Err(Io);
      }
      ghost var entered := disk;
      assert FilesOf(entered, Final(input.revision)) == FilesOf(before, Final(input.revision));
      assert Acceptable(sha, labId, entered, input) <==> Acceptable(sha, labId, before, input) by {
        ReadersIgnoreTemps(sha, labId, before, entered, input.revision, pointer);
      }
      r := CommitFrom(Temp(uuid), input);
      ghost var left := disk;
      var removed := RemoveDirectory(Temp(uuid));
      CommitStepAmongTemps(sha, labId, before, entered, left, disk, input);
      ReadersIgnoreTemps(sha, labId, before, entered, input.revision, pointer);
      ReadersIgnoreTemps(sha, labId, left, disk, input.revision, pointer);
      if r.Ok? {
        ReadersAgree(sha, labId, left, pointer, r.value);
        if !Occupied(before, input.revision) {
          RenderedReadsAsNew(sha, labId, left, input, pointer, r.value);
        } else {
          CommitStepKeepsOccupied(sha, labId, entered, left, input);
          AgreeingIsNew(sha, labId, entered, left, input, r.value);
        }
      }
      if !removed {
        r := Err(Io);
      }
    }

    /**
     `freezeConfigRevision`: the bytes are the encoded texts.  A new number
     freezes their encoding, which is the input itself exactly when it is well
     formed; an existing number must hold the input's own texts.
     */
    method FreezeConfigRevision(revision: int, spec: Text, config: Text, manifest: Manifest, dialogueHead: Hash)
      returns (r: Result<FrozenRevision, Code>)
      modifies this
      ensures var input := ConfigInput(revision, spec, config, manifest, dialogueHead);
              && CommitStep(sha, labId, old(disk), disk, input)
              && (r.Err? ==>
                    || Blank(spec) || Blank(config) || faulted || Root !in old(disk)
                    || !Acceptable(sha, labId, old(disk), input))
      ensures Blank(spec) || Blank(config) ==> r == Err(InvalidSource) && disk == old(disk)
      ensures r.Ok? ==>
                && ReadCurrent(sha, labId, disk) == r && ReadRevisionAt(sha, labId, disk, revision) == r
                && r.value.manifest == manifest && r.value.ref.dialogueHead == dialogueHead
                && (if Occupied(old(disk), revision) then r.value.spec == spec && r.value.config == config
                    else Utf8(r.value.spec) == Encode(spec) && Utf8(r.value.config) == Encode(config))
                && (WellFormed(spec) && WellFormed(config) ==> r.value.spec == spec && r.value.config == config)
    {
      hide ReadCurrent, ReadRevisionAt, CommitStep;
      EncodeIsFaithful(spec);
      EncodeIsFaithful(config);
      var input := ConfigInput(revision, spec, config, manifest, dialogueHead);
      if Blank(spec) || Blank(config) {
        StandingStillIsACommitStep(sha, labId, disk, disk, input);
        return Err(InvalidSource);
      }
      r := FreezeRevision(input);
    }

    /**
     `freezeDraftRevision` reads the draft twice.  When another writer made
     `edited` of it in between, a new revision freezes the second reading, while
     an existing one is compared with the first.  However it ends, CURRENT reads
     as before or as exactly that revision.
     */
    method FreezeDraftRevision(revision: int, manifest: Manifest, dialogueHead: Hash, edited: Files)
      returns (r: Result<FrozenRevision, Code>)
      modifies this
      ensures var input := DraftInput(revision, manifest, dialogueHead, FilesOf(old(disk), Draft), edited);
              && CommitStep(sha, labId, old(disk), disk, input)
              && (r.Ok? ==> IsNew(sha, input, r.value) && Acceptable(sha, labId, old(disk), input))
      ensures !PositiveSafe(revision) ==> r == Err(InvalidSource) && disk == old(disk)
      ensures r.Ok? ==>
                && SpecFile in FilesOf(old(disk), Draft) && SpecFile in edited
                && ReadCurrent(sha, labId, disk) == r && r.value.manifest == manifest
                && (if Occupied(old(disk), revision)
                    then Utf8(r.value.spec) == FilesOf(old(disk), Draft)[SpecFile]
                    else Utf8(r.value.spec) == edited[SpecFile])
    {
      hide ReadCurrent, ReadRevisionAt, CommitStep, Acceptable;
      var draft := FilesOf(disk, Draft);
      var input := DraftInput(revision, manifest, dialogueHead, draft, edited);
      StandingStillIsACommitStep(sha, labId, disk, disk, input);
      if !PositiveSafe(revision) {
        return Err(InvalidSource);
      }
      if Root !in disk {
        return Err(LabNotFound);
      }
      if SpecFile !in draft || ConfigFile !in draft || draft[SpecFile].NotUtf8? || draft[ConfigFile].NotUtf8? {
        return Err(InvalidSource);
      }
      if Blank(draft[SpecFile].text) || Blank(draft[ConfigFile].text) {
        return Err(InvalidSource);
      }
      ghost var before := disk;
      disk := disk[Draft := edited];
      DraftIsNotRead(sha, labId, before, disk, input);
      if SpecFile !in edited || ConfigFile !in edited {
        return Err(Io);
      }
      ghost var entered := disk;
      r := FreezeRevision(input);
      CommitStepAfterDraft(sha, labId, before, entered, disk, input);
    }
  }
}
