/** UploadSecurityPipeline.inspectAndApprove of services/document/src/upload-security.ts:
    interleaved calls that may fail at any await, while uploaders overwrite quarantine. */
module Upload {
  import opened Prelude
  import opened Collections
  import opened Zip

  datatype Descriptor = Descriptor(
    tenantId: string, workspaceId: Option<string>, filename: string, mimeType: string,
    sizeBytes: int, archiveUncompressedBytes: Option<int>)

  datatype Policy = Policy(
    maxBytes: int, allowedExtensions: set<string>, allowedMimeTypes: set<string>,
    maxArchiveExpansionRatio: real, maxArchiveEntries: Option<int>, maxArchiveUncompressedBytes: Option<int>)

  datatype Rejection =
    | InvalidStorageSegment | UploadSizeRejected | UploadExtensionRejected | UploadMimeRejected
    | UploadSizeMismatch | UploadMagicBytesRejected
    | MalformedZip | Zip64ArchiveRejected | ArchiveBombRejected | ArchiveSizeMetadataMismatch

  // ---- Storage keys ----

  predicate SegmentChar(c: char) {
    'A' <= c <= 'Z' || 'a' <= c <= 'z' || '0' <= c <= '9' || c == '.' || c == '_' || c == '-'
  }

  predicate SafeSegment(v: string) {
    && v != "" && v != "." && v != ".." && |v| <= 200
    && forall i :: 0 <= i < |v| ==> SegmentChar(v[i])
  }

  /** An empty workspace is falsy and counts as none. */
  function Workspace(d: Descriptor): Option<string> {
    if d.workspaceId == Some("") then None else d.workspaceId
  }

  function Joined(a: string, rest: string): string {
    a + "/" + rest
  }

  function InTenant(workspace: Option<string>, uploadId: string): string {
    match workspace
    case None => uploadId
    case Some(w) => Joined("workspaces", Joined(w, uploadId))
  }

  function KeyIn(area: string, tenant: string, workspace: Option<string>, uploadId: string): string {
    Joined(area, Joined("tenants", Joined(tenant, InTenant(workspace, uploadId))))
  }

  lemma JoinedTwice(a: string, b: string, rest: string)
    ensures Joined(a, Joined(b, rest)) == Joined(a + "/" + b, rest)
  {
    Regroup(a + "/", b + "/", rest);
    Regroup(a + "/", b, "/");
  }

  /** Keys as they are written. */
  lemma KeysAre(area: string, tenant: string, workspace: string, uploadId: string)
    ensures KeyIn(area, tenant, None, uploadId) == area + "/" + "tenants" + "/" + tenant + "/" + uploadId
    ensures KeyIn(area, tenant, Some(workspace), uploadId)
            == area + "/" + "tenants" + "/" + tenant + "/" + "workspaces" + "/" + workspace + "/" + uploadId
  {
    var t := area + "/" + "tenants";
    var u := t + "/" + tenant;
    var w := u + "/" + "workspaces";
    JoinedTwice(area, "tenants", Joined(tenant, uploadId));
    JoinedTwice(t, tenant, uploadId);
    var inWorkspace := Joined("workspaces", Joined(workspace, uploadId));
    JoinedTwice(area, "tenants", Joined(tenant, inWorkspace));
    JoinedTwice(t, tenant, inWorkspace);
    JoinedTwice(u, "workspaces", Joined(workspace, uploadId));
    JoinedTwice(w, workspace, uploadId);
    hide Joined;
    JoinIs(u, uploadId);
    JoinIs(w + "/" + workspace, uploadId);
  }

  lemma JoinIs(a: string, rest: string)
    ensures Joined(a, rest) == a + "/" + rest
  {
  }

  ghost predicate NoSlash(v: string) {
    forall i :: 0 <= i < |v| ==> v[i] != '/'
  }

  lemma JoinedInjective(a: string, x: string, b: string, y: string)
    requires NoSlash(a) && NoSlash(b) && Joined(a, x) == Joined(b, y)
    ensures a == b && x == y
  {
    var k := Joined(a, x);
    assert k[|a|] == '/' && k[|b|] == '/';
    assert (forall i :: 0 <= i < |a| ==> k[i] == a[i]) && (forall i :: 0 <= i < |b| ==> k[i] == b[i]);
    assert a == k[..|a|] && b == k[..|b|] && x == k[|a| + 1..] && y == k[|b| + 1..];
  }

  ghost predicate SafeKey(tenant: string, workspace: Option<string>, uploadId: string) {
    SafeSegment(tenant) && SafeSegment(uploadId) && (workspace.Some? ==> SafeSegment(workspace.value))
  }

  lemma InTenantInjective(w: Option<string>, u: string, w': Option<string>, u': string)
    requires SafeKey("t", w, u) && SafeKey("t", w', u') && InTenant(w, u) == InTenant(w', u')
    ensures w == w' && u == u'
  {
    if w.Some? && w'.Some? {
      JoinedInjective("workspaces", Joined(w.value, u), "workspaces", Joined(w'.value, u'));
      JoinedInjective(w.value, u, w'.value, u');
    } else if w.Some? {
      HasSlash(w, u);
    } else if w'.Some? {
      HasSlash(w', u');
    }
  }

  lemma HasSlash(w: Option<string>, u: string)
    requires w.Some?
    ensures !NoSlash(InTenant(w, u))
  {
    assert InTenant(w, u)[|"workspaces"|] == '/';
  }

  /** Storage keys of different areas, tenants, workspaces or uploads are different. */
  lemma KeysAreDistinct(a: string, t: string, w: Option<string>, u: string,
                        a': string, t': string, w': Option<string>, u': string)
    requires NoSlash(a) && NoSlash(a') && SafeKey(t, w, u) && SafeKey(t', w', u')
    requires KeyIn(a, t, w, u) == KeyIn(a', t', w', u')
    ensures a == a' && t == t' && w == w' && u == u'
  {
    JoinedInjective(a, Joined("tenants", Joined(t, InTenant(w, u))),
                    a', Joined("tenants", Joined(t', InTenant(w', u'))));
    JoinedInjective("tenants", Joined(t, InTenant(w, u)), "tenants", Joined(t', InTenant(w', u')));
    JoinedInjective(t, InTenant(w, u), t', InTenant(w', u'));
    assert SafeSegment("t");
    InTenantInjective(w, u, w', u');
  }

  // ---- Checks ----

  function LastDot(name: string): int {
    if name == "" then -1 else if name[|name| - 1] == '.' then |name| - 1 else LastDot(name[..|name| - 1])
  }

  function LowerCase(v: string): string {
    seq(|v|, i requires 0 <= i < |v| => if 'A' <= v[i] <= 'Z' then (v[i] as int + 32) as char else v[i])
  }

  function Extension(name: string): (e: string) {
    var i := LastDot(name);
    if 0 <= i <= |name| then LowerCase(name[i..]) else ""
  }

  const ZIP_MIME := "application/zip"
  const DOCX_MIME := "application/vnd.openxmlformats-officedocument.wordprocessingml.document"
  const ZIP_MAGIC: seq<Bytes> := [[0x50, 0x4b, 0x03, 0x04], [0x50, 0x4b, 0x05, 0x06], [0x50, 0x4b, 0x07, 0x08]]
  const MAGIC: map<string, seq<Bytes>> := map[
    "application/pdf" := [[0x25, 0x50, 0x44, 0x46]],
    "image/png" := [[0x89, 0x50, 0x4e, 0x47]],
    "image/jpeg" := [[0xff, 0xd8, 0xff]],
    ZIP_MIME := ZIP_MAGIC,
    DOCX_MIME := ZIP_MAGIC]

  predicate MatchesMagic(b: Bytes, mime: string) {
    mime !in MAGIC || exists s | s in MAGIC[mime] :: s <= b
  }

  function ValidateDescriptor(p: Policy, d: Descriptor): Option<Rejection> {
    if !SafeSegment(d.tenantId) then Some(InvalidStorageSegment)
    else if Workspace(d).Some? && !SafeSegment(Workspace(d).value) then Some(InvalidStorageSegment)
    else if d.sizeBytes <= 0 || d.sizeBytes > p.maxBytes then Some(UploadSizeRejected)
    else if Extension(d.filename) !in p.allowedExtensions then Some(UploadExtensionRejected)
    else if d.mimeType !in p.allowedMimeTypes then Some(UploadMimeRejected)
    else None
  }

  /** A descriptor passes exactly when its segments are safe, its size is positive and allowed, and
      its extension and type are listed. */
  lemma DescriptorAcceptedExactly(p: Policy, d: Descriptor)
    ensures ValidateDescriptor(p, d) == None <==>
      && SafeSegment(d.tenantId) && (Workspace(d).Some? ==> SafeSegment(Workspace(d).value))
      && 0 < d.sizeBytes <= p.maxBytes
      && Extension(d.filename) in p.allowedExtensions && d.mimeType in p.allowedMimeTypes
  {
  }

  predicate Begins(b: Bytes, first: Bytes) {
    |b| >= |first| && b[..|first|] == first
  }

  /** The first bytes of each known type; nothing is asked of any other. */
  lemma MagicExactly(b: Bytes, mime: string)
    ensures MatchesMagic(b, "application/pdf") <==> Begins(b, [0x25, 0x50, 0x44, 0x46])
    ensures MatchesMagic(b, "image/png") <==> Begins(b, [0x89, 0x50, 0x4e, 0x47])
    ensures MatchesMagic(b, "image/jpeg") <==> Begins(b, [0xff, 0xd8, 0xff])
    ensures mime in {ZIP_MIME, DOCX_MIME} ==>
      (MatchesMagic(b, mime) <==>
       Begins(b, [0x50, 0x4b, 0x03, 0x04]) || Begins(b, [0x50, 0x4b, 0x05, 0x06])
       || Begins(b, [0x50, 0x4b, 0x07, 0x08]))
    ensures mime !in {"application/pdf", "image/png", "image/jpeg", ZIP_MIME, DOCX_MIME} ==> MatchesMagic(b, mime)
  {
    PrefixIs(b);
    MagicTable();
    hide MAGIC, ZIP_MIME, DOCX_MIME, Begins;
    OneSignature(b, "application/pdf", [0x25, 0x50, 0x44, 0x46]);
    OneSignature(b, "image/png", [0x89, 0x50, 0x4e, 0x47]);
    OneSignature(b, "image/jpeg", [0xff, 0xd8, 0xff]);
    assert ZIP_MAGIC[0] in ZIP_MAGIC && ZIP_MAGIC[1] in ZIP_MAGIC && ZIP_MAGIC[2] in ZIP_MAGIC;
  }

  lemma OneSignature(b: Bytes, mime: string, first: Bytes)
    requires mime in MAGIC && MAGIC[mime] == [first]
    ensures MatchesMagic(b, mime) <==> first <= b
  {
    hide MAGIC;
    assert [first][0] in [first];
  }

  lemma PrefixIs(b: Bytes)
    ensures forall first :: first <= b <==> Begins(b, first)
  {
  }

  lemma MagicTable()
    ensures MAGIC.Keys == {"application/pdf", "image/png", "image/jpeg", ZIP_MIME, DOCX_MIME}
    ensures MAGIC["application/pdf"] == [[0x25, 0x50, 0x44, 0x46]]
    ensures MAGIC["image/png"] == [[0x89, 0x50, 0x4e, 0x47]]
    ensures MAGIC["image/jpeg"] == [[0xff, 0xd8, 0xff]]
    ensures MAGIC[ZIP_MIME] == MAGIC[DOCX_MIME] == ZIP_MAGIC
  {
  }

  lemma {:induction false} LastDotAt(base: string, suffix: string)
    requires '.' !in suffix
    ensures LastDot(base + "." + suffix) == |base|
  {
    var name := base + "." + suffix;
    if suffix == "" {
      assert name[|name| - 1] == '.';
    } else {
      var n := |suffix| - 1;
      assert name[|name| - 1] == suffix[n] && suffix[n] != '.';
      assert name[..|name| - 1] == base + "." + suffix[..n];
      LastDotAt(base, suffix[..n]);
    }
  }

  lemma {:induction false} NoDot(name: string)
    requires '.' !in name
    ensures LastDot(name) == -1
  {
    if name != "" { NoDot(name[..|name| - 1]); }
  }

  /** The extension is the last dot and what follows it, in lower case, or empty without a dot. */
  lemma ExtensionIs(base: string, suffix: string)
    requires '.' !in suffix
    ensures Extension(base + "." + suffix) == LowerCase("." + suffix) && Extension(suffix) == ""
  {
    LastDotAt(base, suffix);
    NoDot(suffix);
    assert (base + "." + suffix)[|base|..] == "." + suffix;
  }

  function MaxEntries(p: Policy): int {
    match p.maxArchiveEntries case Some(n) => n case None => 10_000
  }

  function MaxUncompressed(p: Policy): real {
    match p.maxArchiveUncompressedBytes
    case Some(n) => n as real
    case None =>
      var product := p.maxBytes as real * p.maxArchiveExpansionRatio;
      if product < 262144000.0 then product else 262144000.0
  }

  /** The limits where the policy sets none: ten thousand entries, and 250 MiB or the largest upload
      times the expansion ratio, whichever is less. */
  lemma DefaultLimits(p: Policy)
    ensures p.maxArchiveEntries == None ==> MaxEntries(p) == 10_000
    ensures p.maxArchiveEntries.Some? ==> MaxEntries(p) == p.maxArchiveEntries.value
    ensures p.maxArchiveUncompressedBytes.Some? ==> MaxUncompressed(p) == p.maxArchiveUncompressedBytes.value as real
    ensures p.maxArchiveUncompressedBytes == None ==>
      var most, product := (250 * 1024 * 1024) as real, p.maxBytes as real * p.maxArchiveExpansionRatio;
      MaxUncompressed(p) <= most && MaxUncompressed(p) <= product && MaxUncompressed(p) in {most, product}
  {
  }

  function CheckArchive(p: Policy, d: Descriptor, b: Bytes): Option<Rejection> {
    match Inspect(b)
    case Err(Malformed) => Some(MalformedZip)
    case Err(Zip64Rejected) => Some(Zip64ArchiveRejected)
    case Ok(z) =>
      var totalRatio := z.totalUncompressedBytes as real / Max(1, z.totalCompressedBytes) as real;
      if z.entries > MaxEntries(p) || z.totalUncompressedBytes as real > MaxUncompressed(p)
         || totalRatio > p.maxArchiveExpansionRatio || z.maxEntryExpansionRatio > p.maxArchiveExpansionRatio
      then Some(ArchiveBombRejected)
      else if d.archiveUncompressedBytes.Some? && d.archiveUncompressedBytes.value != z.totalUncompressedBytes
      then Some(ArchiveSizeMetadataMismatch)
      else None
  }

  predicate IsArchive(d: Descriptor) {
    d.mimeType == ZIP_MIME || d.mimeType == DOCX_MIME
  }

  function CheckBytes(p: Policy, d: Descriptor, b: Bytes): Option<Rejection> {
    if |b| != d.sizeBytes then Some(UploadSizeMismatch)
    else if !MatchesMagic(b, d.mimeType) then Some(UploadMagicBytesRejected)
    else if IsArchive(d) then CheckArchive(p, d, b)
    else None
  }

  /** What the policy asks of the records of an archive. */
  ghost predicate WithinPolicy(p: Policy, d: Descriptor, rs: seq<Record>) {
    var total := SumUncompressed(rs);
    && |rs| <= MaxEntries(p) && total as real <= MaxUncompressed(p)
    && total as real / Max(1, SumCompressed(rs)) as real <= p.maxArchiveExpansionRatio
    && (forall i :: 0 <= i < |rs| ==> Ratio(rs[i]) <= p.maxArchiveExpansionRatio)
    && (d.archiveUncompressedBytes.Some? ==> d.archiveUncompressedBytes.value == total)
  }

  /** The bytes of a ZIP or DOCX upload pass exactly when size and magic fit, the scan gets
      through, there are records or the archive is an empty one, and the records number, add up
      and each expand no more than the policy allows and the descriptor says. */
  lemma ArchiveAcceptedExactly(p: Policy, d: Descriptor, b: Bytes)
    requires IsArchive(d)
    ensures CheckBytes(p, d, b) == None <==>
      && |b| == d.sizeBytes && MatchesMagic(b, d.mimeType) && Parse(b).Ok?
      && var rs := RecordsIn(Parse(b).value);
      && (rs != [] || IsEmptyArchive(b)) && WithinPolicy(p, d, rs)
  {
    hide MatchesMagic, Parse, Totals, RecordsIn, SumCompressed, SumUncompressed, IsEmptyArchive, Ratio;
    if Parse(b).Ok? {
      TotalsOfRecords(Parse(b).value, p.maxArchiveExpansionRatio);
      RatioNotNegative(SumUncompressed(RecordsIn(Parse(b).value)), SumCompressed(RecordsIn(Parse(b).value)));
    }
  }

  lemma RatioNotNegative(uncompressed: nat, compressed: nat)
    ensures uncompressed as real / Max(1, compressed) as real >= 0.0
  {
  }

  // ---- The pipeline as interleaved steps ----

  type CallId = nat

  /** The await a call stands at. */
  datatype Phase =
    | Authorizing | Fetching | Scanning | Vetting | Putting | Deleting | Enqueueing | Approved | Failed

  /** `bytes` are the ones the call fetched, `clean` the scanner's verdict on them. */
  datatype Call = Call(d: Descriptor, uploadId: string, phase: Phase, bytes: Option<Bytes>, clean: bool)

  datatype Event = Put(call: CallId) | Deleted(call: CallId) | Enqueued(call: CallId)

  datatype State = State(objects: map<string, Bytes>, calls: map<CallId, Call>, log: seq<Event>)

  /** An operation may fail before or after taking effect. */
  datatype Outcome = Done | NotDone | DoneButFailed

  datatype Step =
    | Begin(call: CallId, d: Descriptor, uploadId: string)
    | Authorized(call: CallId, yes: bool)
    | Fetched(call: CallId, ok: bool)
    | Scanned(call: CallId, clean: bool)   // false: malware, or the scanner failed
    | Vetted(call: CallId, ok: bool)       // the content policy
    | PutDone(call: CallId, outcome: Outcome)
    | DeleteDone(call: CallId, outcome: Outcome)
    | EnqueueDone(call: CallId, outcome: Outcome)
    | Overwrite(key: string, content: Option<Bytes>)  // an uploader, in quarantine only

  const QUARANTINE := "quarantine"
  const APPROVED := "approved"

  function QuarantineKey(c: Call): string {
    KeyIn(QUARANTINE, c.d.tenantId, Workspace(c.d), c.uploadId)
  }

  function ApprovedKey(c: Call): string {
    KeyIn(APPROVED, c.d.tenantId, Workspace(c.d), c.uploadId)
  }

  predicate InArea(area: string, key: string) {
    area + "/" <= key
  }

  predicate At(s: State, c: CallId, p: Phase) {
    c in s.calls && s.calls[c].phase == p
  }

  predicate Enabled(s: State, step: Step) {
    match step
    case Begin(c, _, _) => c !in s.calls
    case Authorized(c, _) => At(s, c, Authorizing)
    case Fetched(c, _) => At(s, c, Fetching)
    case Scanned(c, _) => At(s, c, Scanning)
    case Vetted(c, _) => At(s, c, Vetting)
    case PutDone(c, _) => At(s, c, Putting) && s.calls[c].bytes.Some?
    case DeleteDone(c, _) => At(s, c, Deleting)
    case EnqueueDone(c, _) => At(s, c, Enqueueing)
    case Overwrite(k, _) => InArea(QUARANTINE, k)
  }

  /** What the call itself becomes; `content` is what its quarantine key holds now. */
  function NextCall(p: Policy, c: Call, step: Step, content: Option<Bytes>): Call {
    match step
    case Authorized(_, yes) => c.(phase := if yes && SafeSegment(c.uploadId) then Fetching else Failed)
    case Fetched(_, ok) =>
      if !ok || content.None? then c.(phase := Failed)
      else c.(phase := if CheckBytes(p, c.d, content.value).Some? then Failed else Scanning, bytes := content)
    case Scanned(_, clean) => c.(phase := if clean then Vetting else Failed, clean := clean)
    case Vetted(_, ok) => c.(phase := if ok then Putting else Failed)
    case PutDone(_, outcome) => c.(phase := if outcome == Done then Deleting else Failed)
    case DeleteDone(_, outcome) => c.(phase := if outcome == Done then Enqueueing else Failed)
    case EnqueueDone(_, outcome) => c.(phase := if outcome == Done then Phase.Approved else Failed)
    case _ => c
  }

  function Content(s: State, key: string): Option<Bytes> {
    if key in s.objects then Some(s.objects[key]) else None
  }

  predicate Effective(step: Step) {
    (step.PutDone? || step.DeleteDone? || step.EnqueueDone?) && step.outcome != NotDone
  }

  function NextObjects(s: State, step: Step): map<string, Bytes>
    requires Enabled(s, step)
  {
    match step
    case Overwrite(k, Some(b)) => s.objects[k := b]
    case Overwrite(k, None) => s.objects - {k}
    case PutDone(c, _) =>
      if Effective(step) then s.objects[ApprovedKey(s.calls[c]) := s.calls[c].bytes.value] else s.objects
    case DeleteDone(c, _) => if Effective(step) then s.objects - {QuarantineKey(s.calls[c])} else s.objects
    case _ => s.objects
  }

  function NextLog(s: State, step: Step): seq<Event> {
    if !Effective(step) then s.log
    else s.log + [match step
                  case DeleteDone(c, _) => Deleted(c)
                  case EnqueueDone(c, _) => Enqueued(c)
                  case _ => Event.Put(step.call)]
  }

  function NextCalls(p: Policy, s: State, step: Step): map<CallId, Call>
    requires Enabled(s, step)
  {
    match step
    case Begin(c, d, u) =>
      s.calls[c := Call(d, u, if ValidateDescriptor(p, d).Some? then Failed else Authorizing, None, false)]
    case Overwrite(_, _) => s.calls
    case _ =>
      var c := s.calls[step.call];
      s.calls[step.call := NextCall(p, c, step, Content(s, QuarantineKey(c)))]
  }

  /** One step; a step that cannot happen now leaves the state alone. */
  function Apply(p: Policy, s: State, step: Step): State {
    if !Enabled(s, step) then s else State(NextObjects(s, step), NextCalls(p, s, step), NextLog(s, step))
  }

  function Exec(p: Policy, s: State, steps: seq<Step>): State {
    if steps == [] then s else Apply(p, Exec(p, s, steps[..|steps| - 1]), steps[|steps| - 1])
  }

  /** The call measured, magic-checked, archive-checked and scanned these bytes. */
  ghost predicate Cleared(p: Policy, c: Call, b: Bytes) {
    && ValidateDescriptor(p, c.d) == None && SafeSegment(c.uploadId)
    && c.bytes == Some(b) && CheckBytes(p, c.d, b) == None && c.clean
  }

  ghost predicate CallInv(p: Policy, c: Call) {
    && (c.phase != Failed ==> ValidateDescriptor(p, c.d) == None)
    && (c.phase !in {Failed, Authorizing} ==> SafeSegment(c.uploadId))
    && (c.phase in {Authorizing, Fetching, Scanning} ==> !c.clean)
    && (c.phase == Scanning ==> c.bytes.Some? && CheckBytes(p, c.d, c.bytes.value) == None)
    && (c.phase in {Vetting, Putting, Deleting, Enqueueing, Phase.Approved} ==>
          c.bytes.Some? && Cleared(p, c, c.bytes.value))
  }

  ghost predicate ClearedFor(p: Policy, s: State, c: CallId, key: string) {
    c in s.calls && key in s.objects && ApprovedKey(s.calls[c]) == key && Cleared(p, s.calls[c], s.objects[key])
  }

  /** Everything in the approved area was cleared by a call for that very key. */
  ghost predicate ApprovedInv(p: Policy, s: State) {
    forall k :: k in s.objects && InArea(APPROVED, k) ==> exists c :: ClearedFor(p, s, c, k)
  }

  ghost predicate CallsInv(p: Policy, s: State) {
    forall c :: c in s.calls ==> CallInv(p, s.calls[c])
  }

  /** Each deletion is preceded by the call's put, each job by its deletion. */
  ghost predicate Ordered(log: seq<Event>) {
    && (forall i :: 0 <= i < |log| && log[i].Deleted? ==> Event.Put(log[i].call) in log[..i])
    && (forall i :: 0 <= i < |log| && log[i].Enqueued? ==> Deleted(log[i].call) in log[..i])
  }

  ghost predicate LogInv(s: State) {
    && Ordered(s.log)
    && (forall c :: At(s, c, Deleting) ==> Event.Put(c) in s.log)
    && (forall c :: At(s, c, Enqueueing) ==> Deleted(c) in s.log)
  }

  ghost predicate Inv(p: Policy, s: State) {
    CallsInv(p, s) && ApprovedInv(p, s) && LogInv(s)
  }

  lemma QuarantineIsNotApproved(k: string)
    requires InArea(QUARANTINE, k)
    ensures !InArea(APPROVED, k)
  {
    assert (QUARANTINE + "/")[0] == 'q' && (APPROVED + "/")[0] == 'a';
  }

  lemma StepKeepsCalls(p: Policy, s: State, step: Step)
    requires Inv(p, s) && Enabled(s, step)
    ensures CallsInv(p, Apply(p, s, step))
  {
    if !step.Overwrite? && !step.Begin? {
      var c := s.calls[step.call];
      NextCallInv(p, c, step, Content(s, QuarantineKey(c)));
    }
  }

  /** The phase at which a call takes a step. */
  function PhaseOf(step: Step): Phase {
    match step
    case Authorized(_, _) => Authorizing
    case Fetched(_, _) => Fetching
    case Scanned(_, _) => Scanning
    case Vetted(_, _) => Vetting
    case PutDone(_, _) => Putting
    case DeleteDone(_, _) => Deleting
    case EnqueueDone(_, _) => Enqueueing
    case _ => Failed
  }

  lemma NextCallInv(p: Policy, c: Call, step: Step, content: Option<Bytes>)
    requires CallInv(p, c) && !step.Overwrite? && !step.Begin? && c.phase == PhaseOf(step)
    ensures CallInv(p, NextCall(p, c, step, content))
  {
  }

  /** A cleared call keeps its bytes, verdict and key. */
  lemma ClearedStays(p: Policy, s: State, step: Step, c: CallId, k: string)
    requires Inv(p, s) && Enabled(s, step) && ClearedFor(p, s, c, k)
    requires k in Apply(p, s, step).objects && Apply(p, s, step).objects[k] == s.objects[k]
    ensures ClearedFor(p, Apply(p, s, step), c, k)
  {
    assert CallInv(p, s.calls[c]);
  }

  lemma StepKeepsApproved(p: Policy, s: State, step: Step)
    requires Inv(p, s) && Enabled(s, step)
    ensures ApprovedInv(p, Apply(p, s, step))
  {
    var t := Apply(p, s, step);
    forall k | k in t.objects && InArea(APPROVED, k) ensures exists c :: ClearedFor(p, t, c, k) {
      if step.PutDone? && step.outcome != NotDone && k == ApprovedKey(s.calls[step.call]) {
        assert CallInv(p, s.calls[step.call]);
        assert ClearedFor(p, t, step.call, k);
      } else {
        if step.Overwrite? { assert k != step.key by { QuarantineIsNotApproved(step.key); } }
        assert k in s.objects && t.objects[k] == s.objects[k];
        var c :| ClearedFor(p, s, c, k);
        ClearedStays(p, s, step, c, k);
      }
    }
  }

  lemma OrderedAppend(log: seq<Event>, e: Event)
    requires Ordered(log)
    requires e.Deleted? ==> Event.Put(e.call) in log
    requires e.Enqueued? ==> Deleted(e.call) in log
    ensures Ordered(log + [e])
  {
    var l := log + [e];
    assert l[..|log|] == log;
    forall i | 0 <= i < |log| ensures l[..i] == log[..i] {}
  }

  lemma StepKeepsLog(p: Policy, s: State, step: Step)
    requires Inv(p, s) && Enabled(s, step)
    ensures LogInv(Apply(p, s, step))
  {
    if Effective(step) {
      OrderedAppend(s.log, Apply(p, s, step).log[|s.log|]);
    }
  }

  lemma {:induction false} RunKeepsInv(p: Policy, s: State, steps: seq<Step>)
    requires Inv(p, s)
    ensures Inv(p, Exec(p, s, steps))
  {
    if steps != [] {
      RunKeepsInv(p, s, steps[..|steps| - 1]);
      var t, step := Exec(p, s, steps[..|steps| - 1]), steps[|steps| - 1];
      if Enabled(t, step) {
        StepKeepsCalls(p, t, step);
        StepKeepsApproved(p, t, step);
        StepKeepsLog(p, t, step);
      }
    }
  }

  lemma KeyInArea(area: string, tenant: string, workspace: Option<string>, uploadId: string)
    ensures InArea(area, KeyIn(area, tenant, workspace, uploadId))
  {
  }

  lemma ClearedIsSafe(p: Policy, c: Call, b: Bytes)
    requires Cleared(p, c, b)
    ensures SafeKey(c.d.tenantId, Workspace(c.d), c.uploadId)
  {
  }

  ghost predicate NothingApproved(objects: map<string, Bytes>) {
    forall k :: k in objects ==> !InArea(APPROVED, k)
  }

  /** Under every interleaving, failure and overwrite of quarantine: an object under an
      approved key is exactly the bytes that a call for the same tenant, workspace and upload
      measured, checked and found clean. */
  lemma ApprovedBytesWereCleared(p: Policy, objects: map<string, Bytes>, steps: seq<Step>,
                                 tenant: string, workspace: Option<string>, uploadId: string)
    requires NothingApproved(objects) && SafeKey(tenant, workspace, uploadId)
    ensures var s := Exec(p, State(objects, map[], []), steps); var k := KeyIn(APPROVED, tenant, workspace, uploadId);
      k in s.objects ==>
        exists c :: c in s.calls && Cleared(p, s.calls[c], s.objects[k])
                    && s.calls[c].d.tenantId == tenant && Workspace(s.calls[c].d) == workspace
                    && s.calls[c].uploadId == uploadId
  {
    hide Exec, KeyIn, CheckBytes, ValidateDescriptor;
    RunKeepsInv(p, State(objects, map[], []), steps);
    var s, k := Exec(p, State(objects, map[], []), steps), KeyIn(APPROVED, tenant, workspace, uploadId);
    if k in s.objects {
      KeyInArea(APPROVED, tenant, workspace, uploadId);
      var c :| ClearedFor(p, s, c, k);
      var d := s.calls[c].d;
      ClearedIsSafe(p, s.calls[c], s.objects[k]);
      KeysAreDistinct(APPROVED, d.tenantId, Workspace(d), s.calls[c].uploadId, APPROVED, tenant, workspace, uploadId);
    }
  }

  /** A call deletes from quarantine only after its approved put, and enqueues its job only
      after both. */
  lemma EffectsInOrder(p: Policy, objects: map<string, Bytes>, steps: seq<Step>, i: nat)
    requires NothingApproved(objects)
    ensures var log := Exec(p, State(objects, map[], []), steps).log;
      i < |log| ==>
        && (log[i].Deleted? ==> Event.Put(log[i].call) in log[..i])
        && (log[i].Enqueued? ==> Event.Put(log[i].call) in log[..i] && Deleted(log[i].call) in log[..i])
  {
    RunKeepsInv(p, State(objects, map[], []), steps);
    var log := Exec(p, State(objects, map[], []), steps).log;
    if i < |log| && log[i].Enqueued? {
      var j :| 0 <= j < i && log[..i][j] == Deleted(log[i].call);
      assert log[j] == Deleted(log[i].call);
      var n :| 0 <= n < j && log[..j][n] == Event.Put(log[i].call);
      assert log[..i][n] == Event.Put(log[i].call);
    }
  }

  lemma ApprovedObjectStays(p: Policy, s: State, step: Step, k: string)
    requires k in s.objects && InArea(APPROVED, k)
    ensures k in Apply(p, s, step).objects
  {
    if Enabled(s, step) {
      if step.Overwrite? { QuarantineIsNotApproved(step.key); }
      if step.DeleteDone? {
        var c := s.calls[step.call];
        KeyInArea(QUARANTINE, c.d.tenantId, Workspace(c.d), c.uploadId);
        QuarantineIsNotApproved(QuarantineKey(c));
      }
    }
  }

  /** What is under an approved key may be replaced but never goes. */
  lemma {:induction false} ApprovedObjectsStay(p: Policy, s: State, steps: seq<Step>)
    ensures forall k :: k in s.objects && InArea(APPROVED, k) ==> k in Exec(p, s, steps).objects
  {
    if steps != [] {
      ApprovedObjectsStay(p, s, steps[..|steps| - 1]);
      var t := Exec(p, s, steps[..|steps| - 1]);
      forall k | k in s.objects && InArea(APPROVED, k) ensures k in Exec(p, s, steps).objects {
        ApprovedObjectStays(p, t, steps[|steps| - 1], k);
      }
    }
  }

  lemma ApprovedCallIsCleared(p: Policy, objects: map<string, Bytes>, steps: seq<Step>, c: CallId)
    requires NothingApproved(objects) && At(Exec(p, State(objects, map[], []), steps), c, Phase.Approved)
    ensures var call := Exec(p, State(objects, map[], []), steps).calls[c];
      call.bytes.Some? && Cleared(p, call, call.bytes.value)
  {
    hide Exec, Cleared, CheckBytes, ValidateDescriptor;
    RunKeepsInv(p, State(objects, map[], []), steps);
    assert CallInv(p, Exec(p, State(objects, map[], []), steps).calls[c]);
  }

  // ---- inspectAndApprove ----

  lemma {:induction false} ExecAppend(p: Policy, s: State, a: seq<Step>, b: seq<Step>)
    ensures Exec(p, s, a + b) == Exec(p, Exec(p, s, a), b)
  {
    if b == [] {
      assert a + b == a;
    } else {
      ExecAppend(p, s, a, b[..|b| - 1]);
      assert (a + b)[..|a + b| - 1] == a + b[..|b| - 1];
    }
  }

  ghost predicate Leaves(c: CallId, steps: seq<Step>) {
    forall i :: 0 <= i < |steps| && !steps[i].Overwrite? ==> steps[i].call != c
  }

  lemma {:induction false} OthersLeaveCall(p: Policy, s: State, c: CallId, steps: seq<Step>)
    requires c in s.calls && Leaves(c, steps)
    ensures c in Exec(p, s, steps).calls && Exec(p, s, steps).calls[c] == s.calls[c]
    ensures s.log <= Exec(p, s, steps).log
  {
    if steps != [] { OthersLeaveCall(p, s, c, steps[..|steps| - 1]); }
  }

  /** Storage, scanner and queue, shared by all calls and by the uploaders. */
  class Platform {
    const policy: Policy
    ghost const initial: map<string, Bytes>
    var state: State
    ghost var schedule: seq<Step>  // every step taken so far

    ghost predicate Valid() reads this {
      NothingApproved(initial) && state == Exec(policy, State(initial, map[], []), schedule)
    }

    constructor (policy: Policy, objects: map<string, Bytes>)
      requires NothingApproved(objects)
      ensures Valid() && this.policy == policy && state == State(objects, map[], [])
    {
      this.policy, this.initial := policy, objects;
      state, schedule := State(objects, map[], []), [];
    }

    method Take(step: Step)
      requires Valid()
      modifies this
      ensures Valid() && state == Apply(policy, old(state), step)
    {
      assert (schedule + [step])[..|schedule|] == schedule;
      state, schedule := Apply(policy, state, step), schedule + [step];
    }

    /** Everybody else's steps while call c awaits. */
    method Await(c: CallId, others: seq<Step>)
      requires Valid() && c in state.calls && Leaves(c, others)
      modifies this
      ensures Valid() && c in state.calls && state.calls[c] == old(state.calls[c]) && old(state.log) <= state.log
      ensures forall k :: k in old(state.objects) && InArea(APPROVED, k) ==> k in state.objects
      ensures others == [] ==> state == old(state)
    {
      ApprovedObjectsStay(policy, state, others);
      OthersLeaveCall(policy, state, c, others);
      ExecAppend(policy, State(initial, map[], []), schedule, others);
      state, schedule := Exec(policy, state, others), schedule + others;
    }
  }

  /** How each await of a call ends, and what everybody else does meanwhile. */
  datatype Answers = Answers(
    authorized: bool, fetched: bool, clean: bool, vetted: bool,
    put: Outcome, deleted: Outcome, enqueued: Outcome, others: nat -> seq<Step>)

  /** Every await of the call ends well. */
  predicate AllWell(a: Answers) {
    a.authorized && a.fetched && a.clean && a.vetted && a.put == a.deleted == a.enqueued == Done
  }

  /** The key is safe, and the bytes that the call fetched fit its descriptor. */
  predicate BytesPass(p: Policy, c: Call) {
    SafeSegment(c.uploadId) && c.bytes.Some? && CheckBytes(p, c.d, c.bytes.value) == None
  }

  /** One call under arbitrary interference: it approves exactly when the descriptor and the
      bytes it fetched pass and every await ends well. It has then cleared these bytes, put
      them, deleted the quarantined object and queued the job. */
  method InspectAndApprove(platform: Platform, c: CallId, d: Descriptor, uploadId: string, a: Answers)
    returns (approvedKey: Option<string>)
    requires platform.Valid() && c !in platform.state.calls && forall n: nat :: Leaves(c, a.others(n))
    modifies platform
    ensures platform.Valid() && c in platform.state.calls
    ensures platform.state.calls[c].d == d && platform.state.calls[c].uploadId == uploadId
    ensures platform.state.calls[c].phase == if approvedKey.Some? then Phase.Approved else Failed
    ensures approvedKey.Some? <==>
      && ValidateDescriptor(platform.policy, d) == None && BytesPass(platform.policy, platform.state.calls[c])
      && AllWell(a)
    ensures approvedKey.Some? ==>
      && approvedKey.value == KeyIn(APPROVED, d.tenantId, Workspace(d), uploadId)
      && approvedKey.value in platform.state.objects
      && Event.Put(c) in platform.state.log && Deleted(c) in platform.state.log && Enqueued(c) in platform.state.log
      && platform.state.calls[c].bytes.Some?
      && Cleared(platform.policy, platform.state.calls[c], platform.state.calls[c].bytes.value)
    ensures Undisturbed(a) && approvedKey.Some? ==>
      var quarantineKey := KeyIn(QUARANTINE, d.tenantId, Workspace(d), uploadId);
      var objects := old(platform.state.objects);
      && quarantineKey in objects && platform.state.calls[c].bytes == Some(objects[quarantineKey])
      && platform.state.objects == objects[approvedKey.value := objects[quarantineKey]] - {quarantineKey}
    ensures Undisturbed(a) && AllWell(a) ==>
      var content := Content(old(platform.state), KeyIn(QUARANTINE, d.tenantId, Workspace(d), uploadId));
      approvedKey.Some? <==>
        && ValidateDescriptor(platform.policy, d) == None && SafeSegment(uploadId)
        && content.Some? && CheckBytes(platform.policy, d, content.value) == None
  {
    platform.Take(Begin(c, d, uploadId));
    var go := platform.state.calls[c].phase == Authorizing;
    if go { go := Check(platform, c, a); }
    if go {
      go := Publish(platform, c, a);
      if go {
        EffectsInOrder(platform.policy, platform.initial, platform.schedule, |platform.state.log| - 1);
        ApprovedCallIsCleared(platform.policy, platform.initial, platform.schedule, c);
      }
    }
    approvedKey := if go then Some(KeyIn(APPROVED, d.tenantId, Workspace(d), uploadId)) else None;
  }

  /** Up to the put: authorization, the bytes, and the verdicts on them. */
  method Check(platform: Platform, c: CallId, a: Answers) returns (ok: bool)
    requires platform.Valid() && At(platform.state, c, Authorizing) && platform.state.calls[c].bytes.None?
    requires forall n: nat :: Leaves(c, a.others(n))
    modifies platform
    ensures platform.Valid() && At(platform.state, c, if ok then Putting else Failed)
    ensures platform.state.calls[c].d == old(platform.state.calls[c].d)
    ensures platform.state.calls[c].uploadId == old(platform.state.calls[c].uploadId)
    ensures ok <==>
      a.authorized && a.fetched && a.clean && a.vetted && BytesPass(platform.policy, platform.state.calls[c])
    ensures Undisturbed(a) ==> platform.state.objects == old(platform.state.objects)
    ensures Undisturbed(a) && platform.state.calls[c].bytes.Some? ==>
      platform.state.calls[c].bytes == Content(old(platform.state), QuarantineKey(platform.state.calls[c]))
    ensures Undisturbed(a) && a.authorized && a.fetched && SafeSegment(platform.state.calls[c].uploadId) ==>
      platform.state.calls[c].bytes == Content(old(platform.state), QuarantineKey(platform.state.calls[c]))
  {
    hide CheckBytes, KeyIn, SafeSegment;
    ok := Perform(platform, c, Authorized(c, a.authorized), a.others(0));
    if ok { ok := Perform(platform, c, Fetched(c, a.fetched), a.others(1)); }
    if ok { ok := Perform(platform, c, Scanned(c, a.clean), a.others(2)); }
    if ok { ok := Perform(platform, c, Vetted(c, a.vetted), a.others(3)); }
  }

  /** The put, the deletion and the job, in this order and each only after the one before. */
  method Publish(platform: Platform, c: CallId, a: Answers) returns (ok: bool)
    requires platform.Valid() && At(platform.state, c, Putting) && platform.state.calls[c].bytes.Some?
    requires forall n: nat :: Leaves(c, a.others(n))
    modifies platform
    ensures platform.Valid() && At(platform.state, c, if ok then Phase.Approved else Failed)
    ensures platform.state.calls[c].d == old(platform.state.calls[c].d)
    ensures platform.state.calls[c].uploadId == old(platform.state.calls[c].uploadId)
    ensures platform.state.calls[c].bytes == old(platform.state.calls[c].bytes)
    ensures ok <==> a.put == a.deleted == a.enqueued == Done
    ensures ok ==> ApprovedKey(platform.state.calls[c]) in platform.state.objects
    ensures Undisturbed(a) && ok ==>
      platform.state.objects == Moved(old(platform.state.objects), platform.state.calls[c])
    ensures ok ==> platform.state.log != [] && platform.state.log[|platform.state.log| - 1] == Enqueued(c)
  {
    ghost var call := platform.state.calls[c];
    KeyInArea(APPROVED, call.d.tenantId, Workspace(call.d), call.uploadId);
    hide KeyIn;
    ok := Perform(platform, c, PutDone(c, a.put), a.others(4));
    if ok { ok := Perform(platform, c, DeleteDone(c, a.deleted), a.others(5)); }
    if ok { ok := Perform(platform, c, EnqueueDone(c, a.enqueued), a.others(6)); }
  }

  /** The objects once the fetched bytes are approved and gone from quarantine. */
  ghost function Moved(objects: map<string, Bytes>, c: Call): map<string, Bytes>
    requires c.bytes.Some?
  {
    objects[ApprovedKey(c) := c.bytes.value] - {QuarantineKey(c)}
  }

  /** Nobody else takes a step while the call awaits. */
  ghost predicate Undisturbed(a: Answers) {
    forall n: nat :: a.others(n) == []
  }

  /** Wait, then take one step of the call; it goes on unless the step failed it. */
  method Perform(platform: Platform, c: CallId, step: Step, others: seq<Step>) returns (ok: bool)
    requires platform.Valid() && c in platform.state.calls && Leaves(c, others)
    requires !step.Overwrite? && !step.Begin? && step.call == c && Enabled(platform.state, step)
    modifies platform
    ensures platform.Valid() && c in platform.state.calls
    ensures exists content ::
      platform.state.calls[c] == NextCall(platform.policy, old(platform.state.calls[c]), step, content)
    ensures ok == (platform.state.calls[c].phase != Failed)
    ensures forall k :: k in old(platform.state.objects) && InArea(APPROVED, k) ==> k in platform.state.objects
    ensures step.PutDone? && ok ==> ApprovedKey(platform.state.calls[c]) in platform.state.objects
    ensures others == [] ==> platform.state == Apply(platform.policy, old(platform.state), step)
    ensures ok && step.EnqueueDone? ==>
      platform.state.log != [] && platform.state.log[|platform.state.log| - 1] == Enqueued(c)
  {
    platform.Await(c, others);
    ghost var call := platform.state.calls[c];
    ghost var content := Content(platform.state, QuarantineKey(call));
    forall k | k in platform.state.objects && InArea(APPROVED, k) {
      ApprovedObjectStays(platform.policy, platform.state, step, k);
    }
    platform.Take(step);
    assert platform.state.calls[c] == NextCall(platform.policy, call, step, content);
    ok := platform.state.calls[c].phase != Failed;
  }
}
