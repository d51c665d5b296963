/**
 * Email sending: recipient validation and normalisation, attachment
 * validation, reading and encoding, and the assembly of the `email` request
 * payload, with its checks in a fixed order (content, sender, to, cc, bcc,
 * reply-to, each attachment, tags). The library calls the SDK makes
 * (`filter_var`, `basename`, `crc32`, `base64_encode`, `realpath`, the file
 * functions and the remote fetch) are fields of an environment value.
 */
module Emails {
  import opened Wrappers
  import opened Php
  import opened Exceptions
  import opened BaseClient

  /** The local filesystem as `readLocalAttachment` probes it. */
  datatype FileSystem = FileSystem(
    fileExists: string -> bool,
    isFile: string -> bool,
    isReadable: string -> bool,
    contents: string -> Option<Bytes>,      // file_get_contents; None for `false`
    realpath: string -> Option<string>,     // None for `false`
    cwd: Option<string>,                    // getcwd(); None for `false`
    separator: string)                      // DIRECTORY_SEPARATOR

  /** The library functions the email client calls. */
  datatype Env = Env(
    isValidEmail: string -> bool,           // filter_var(.., FILTER_VALIDATE_EMAIL)
    isValidUrl: string -> bool,             // filter_var(.., FILTER_VALIDATE_URL)
    basename: string -> string,
    crc32: string -> int,
    base64: Bytes -> string,
    fetchUrl: string -> Option<Bytes>,      // the remote file_get_contents; None for `false`
    fs: FileSystem)

  // ---------------------------------------------------------------------------
  // Recipients
  // ---------------------------------------------------------------------------

  function InvalidAddressMessage(role: string, shown: string): string {
    "Invalid " + role + " email address: " + shown
  }

  function InvalidFormatMessage(role: string): string {
    "Invalid " + role + " format"
  }

  /** `$recipient['email'] ?? 'missing'`, as interpolated into the error message. */
  function ShownEmail(es: seq<Entry>): string {
    StringCast(Coalesce(Lookup(es, K("email")), Str("missing")))
  }

  /** The `email` of a recipient map is present, passes as a string and is a valid address. */
  predicate HasValidEmail(env: Env, es: seq<Entry>) {
    var e := Lookup(es, K("email"));
    e.Some? && StringParam(e.value).Some? && env.isValidEmail(StringParam(e.value).value)
  }

  /**
   * validateRecipient: a string becomes `['email' => s]`, a map is returned
   * unchanged, both only when the address is valid; anything else is
   * rejected as a bad format.
   */
  function ValidateRecipient(env: Env, recipient: Value, role: string): (r: Result<Value, SendLayerError>)
    ensures r.Success? ==> r.value.Arr? && HasValidEmail(env, r.value.entries)
    ensures recipient.Str? ==> (r.Success? <==> env.isValidEmail(recipient.s))
    ensures recipient.Str? && r.Success? ==> r.value == Arr([Entry(K("email"), recipient)])
    ensures recipient.Str? && r.Failure? ==> r.error == ValidationError(InvalidAddressMessage(role, recipient.s))
    ensures recipient.Arr? ==>
      (r.Success? <==> !EmptyAt(recipient.entries, K("email")) && HasValidEmail(env, recipient.entries))
    ensures recipient.Arr? && r.Success? ==> r.value == recipient
    ensures recipient.Arr? && EmptyAt(recipient.entries, K("email")) ==>
      r == Failure(ValidationError(InvalidAddressMessage(role, ShownEmail(recipient.entries))))
    ensures recipient.Arr? && r.Failure? && !EmptyAt(recipient.entries, K("email")) ==>
      if Lookup(recipient.entries, K("email")).value.Arr? then r.error.TypeError?
      else r.error == ValidationError(InvalidAddressMessage(role, ShownEmail(recipient.entries)))
    ensures !recipient.Str? && !recipient.Arr? ==> r == Failure(ValidationError(InvalidFormatMessage(role)))
  {
    match recipient
    case Str(s) =>
      if !env.isValidEmail(s) then Failure(ValidationError(InvalidAddressMessage(role, s)))
      else Success(Arr([Entry(K("email"), recipient)]))
    case Arr(es) =>
      if EmptyAt(es, K("email")) then Failure(ValidationError(InvalidAddressMessage(role, ShownEmail(es))))
      else
        (match StringParam(Lookup(es, K("email")).value)
         case None => Failure(TypeError("validateEmail(): Argument #1 ($email) must be of type string, array given"))
         case Some(email) =>
           if !env.isValidEmail(email) then Failure(ValidationError(InvalidAddressMessage(role, ShownEmail(es))))
           else Success(recipient))
    case _ => Failure(ValidationError(InvalidFormatMessage(role)))
  }

  /**
   * The recipients a group argument stands for: an array without a set
   * `email` is the list itself, anything else is one recipient wrapped as `[x]`.
   */
  function RecipientList(v: Value): seq<Entry> {
    if v.Arr? && !Isset(v.entries, K("email")) then v.entries else [Entry(IntKey(0), v)]
  }

  /** The callback succeeds on every value before index `i` and fails at `i` with `e`. */
  predicate FailsFirstAt(f: Value -> Result<Value, SendLayerError>, es: seq<Entry>, i: int, e: SendLayerError) {
    0 <= i < |es| && f(es[i].val) == Failure(e) && forall j :: 0 <= j < i ==> f(es[j].val).Success?
  }

  /**
   * `array_map` with a callback that may throw: the values are mapped in
   * order, the keys kept, and the first exception is raised.
   */
  function MapEntries(f: Value -> Result<Value, SendLayerError>, es: seq<Entry>): (r: Result<seq<Entry>, SendLayerError>)
    ensures r.Success? <==> forall i :: 0 <= i < |es| ==> f(es[i].val).Success?
    ensures r.Success? ==>
      && |r.value| == |es|
      && forall i :: 0 <= i < |es| ==> r.value[i] == Entry(es[i].key, f(es[i].val).value)
    ensures r.Failure? ==> exists i :: FailsFirstAt(f, es, i, r.error)
  {
    if es == [] then Success([])
    else
      var init := es[..|es| - 1];
      var last := es[|es| - 1];
      assert forall i :: 0 <= i < |init| ==> init[i] == es[i];
      match MapEntries(f, init)
      case Failure(e) =>
        assert exists i :: FailsFirstAt(f, es, i, e) by {
          var i :| FailsFirstAt(f, init, i, e);
          assert FailsFirstAt(f, es, i, e);
        }
        Failure(e)
      case Success(done) =>
        match f(last.val)
        case Failure(e) =>
          assert FailsFirstAt(f, es, |es| - 1, e);
          Failure(e)
        case Success(v) => Success(done + [Entry(last.key, v)])
  }

  /** The `array_map` callback of a recipient group. */
  function RecipientCheck(env: Env, role: string): Value -> Result<Value, SendLayerError> {
    x => ValidateRecipient(env, x, role)
  }

  /** One recipient group (to, cc, bcc, reply-to): normalised to a list, then each recipient validated. */
  function RecipientGroup(env: Env, v: Value, role: string): (r: Result<seq<Entry>, SendLayerError>)
    ensures r.Success? <==> forall i :: 0 <= i < |RecipientList(v)| ==> ValidateRecipient(env, RecipientList(v)[i].val, role).Success?
    ensures r.Success? ==> NormalisedGroup(env, r.value, v, role)
    ensures r.Failure? ==> exists i :: FailsFirstAt(RecipientCheck(env, role), RecipientList(v), i, r.error)
  {
    var f := RecipientCheck(env, role);
    var list := RecipientList(v);
    assert forall i :: 0 <= i < |list| ==> f(list[i].val) == ValidateRecipient(env, list[i].val, role);
    MapEntries(f, list)
  }

  /**
   * `group` is the normalised form of the argument `v`: one entry per element
   * of its recipient list, under the same key, holding that element validated.
   */
  predicate NormalisedGroup(env: Env, group: seq<Entry>, v: Value, role: string) {
    var list := RecipientList(v);
    && |group| == |list|
    && forall i :: 0 <= i < |list| ==>
         group[i].key == list[i].key && ValidateRecipient(env, list[i].val, role) == Success(group[i].val)
  }

  /** An optional group: null leaves the key out, anything else is a group. */
  function OptionalGroup(env: Env, v: Value, role: string): (r: Result<Option<seq<Entry>>, SendLayerError>)
    ensures v.Null? ==> r == Success(None)
    ensures !v.Null? ==> (r.Success? <==> RecipientGroup(env, v, role).Success?)
    ensures !v.Null? && r.Success? ==> r.value == Some(RecipientGroup(env, v, role).value)
    ensures !v.Null? && r.Failure? ==> r.error == RecipientGroup(env, v, role).error
  {
    if v.Null? then Success(None)
    else
      var group :- RecipientGroup(env, v, role);
      Success(Some(group))
  }

  /** A single recipient and the one-element list holding it give the same group. */
  lemma SingleRecipientIsOneElementList(env: Env, x: Value, role: string)
    requires x.Str? || (x.Arr? && Isset(x.entries, K("email")))
    ensures RecipientGroup(env, x, role) == RecipientGroup(env, Arr([Entry(IntKey(0), x)]), role)
  {
    assert Lookup([Entry(IntKey(0), x)], K("email")) == None;
  }

  /** The empty array is an empty list of recipients, not an error. */
  lemma EmptyGroupIsEmptyList(env: Env, role: string)
    ensures RecipientGroup(env, Arr([]), role) == Success([])
  {
  }

  /** An array with a set `email` is one recipient, kept with all its keys. */
  lemma MapRecipientKeptWhole(env: Env, es: seq<Entry>, role: string)
    requires Isset(es, K("email")) && Lookup(es, K("email")).value.Str?
    requires env.isValidEmail(Lookup(es, K("email")).value.s)
    requires Lookup(es, K("email")).value.s != "" && Lookup(es, K("email")).value.s != "0"
    ensures RecipientGroup(env, Arr(es), role) == Success([Entry(IntKey(0), Arr(es))])
  {
    var list := [Entry(IntKey(0), Arr(es))];
    assert RecipientList(Arr(es)) == list;
    assert ValidateRecipient(env, Arr(es), role) == Success(Arr(es));
    var r := RecipientGroup(env, Arr(es), role);
    assert r.Success? && |r.value| == 1 && r.value[0] == list[0];
    assert r.value == list;
  }

  // ---------------------------------------------------------------------------
  // Attachments
  // ---------------------------------------------------------------------------

  const PathRequiredMessage := "Attachment path is required"
  const TypeRequiredMessage := "Attachment type is required"

  /** validateAttachment: the argument must be an array with a non-empty path, then a non-empty type. */
  function ValidateAttachment(a: Value): (r: Result<seq<Entry>, SendLayerError>)
    ensures !a.Arr? ==> r.Failure? && r.error.TypeError?
    ensures a.Arr? && EmptyAt(a.entries, K("path")) ==> r == Failure(ValidationError(PathRequiredMessage))
    ensures a.Arr? && !EmptyAt(a.entries, K("path")) && EmptyAt(a.entries, K("type")) ==>
      r == Failure(ValidationError(TypeRequiredMessage))
    ensures r.Success? <==> a.Arr? && !EmptyAt(a.entries, K("path")) && !EmptyAt(a.entries, K("type"))
    ensures r.Success? ==> r.value == a.entries
  {
    if !a.Arr? then Failure(TypeError("validateAttachment(): Argument #1 ($attachment) must be of type array"))
    else if EmptyAt(a.entries, K("path")) then Failure(ValidationError(PathRequiredMessage))
    else if EmptyAt(a.entries, K("type")) then Failure(ValidationError(TypeRequiredMessage))
    else Success(a.entries)
  }

  /** An attachment lacking both path and type is reported as lacking its path. */
  lemma MissingPathReportedFirst(es: seq<Entry>)
    requires EmptyAt(es, K("path")) && EmptyAt(es, K("type"))
    ensures ValidateAttachment(Arr(es)) == Failure(ValidationError(PathRequiredMessage))
  {
  }

  function RemoteErrorMessage(url: string): string {
    "Error reading remote attachment: Error fetching remote file: " + url
  }

  function UnreadableMessage(path: string): string {
    "Error reading attachment: " + "Could not read file: " + path
  }

  function NotFoundMessage(path: string): string {
    "Attachment file not found: " + path
  }

  /** readRemoteAttachment: the fetched bytes, base64-encoded; a failed fetch is rewrapped. */
  function RemoteAttachment(env: Env, url: string): (r: Result<string, SendLayerError>)
    ensures env.fetchUrl(url).Some? ==> r == Success(env.base64(env.fetchUrl(url).value))
    ensures env.fetchUrl(url).None? ==> r == Failure(SdkError(RemoteErrorMessage(url)))
  {
    match env.fetchUrl(url)
    case None => Failure(SdkError(RemoteErrorMessage(url)))
    case Some(bytes) => Success(env.base64(bytes))
  }

  /** The paths tried for a local file, in order: as given, its realpath, relative to the working directory. */
  function Candidates(fs: FileSystem, path: string): seq<Option<string>> {
    [Some(path), fs.realpath(path), Some(fs.cwd.GetOr("") + fs.separator + path)]
  }

  /** A candidate exists, is a regular file and is readable (`false` never is). */
  predicate Qualifies(fs: FileSystem, c: Option<string>) {
    c.Some? && fs.fileExists(c.value) && fs.isFile(c.value) && fs.isReadable(c.value)
  }

  /** The index of the first qualifying candidate at or after `i`. */
  function FirstQualifying(fs: FileSystem, cs: seq<Option<string>>, i: nat): (r: Option<nat>)
    requires i <= |cs|
    ensures r.Some? ==>
      && i <= r.value < |cs|
      && Qualifies(fs, cs[r.value])
      && forall j :: i <= j < r.value ==> !Qualifies(fs, cs[j])
    ensures r.None? <==> forall j :: i <= j < |cs| ==> !Qualifies(fs, cs[j])
    decreases |cs| - i
  {
    if i == |cs| then None
    else if Qualifies(fs, cs[i]) then Some(i)
    else FirstQualifying(fs, cs, i + 1)
  }

  /** Reading a qualifying candidate: its bytes base64-encoded, or the rewrapped read error. */
  function ReadCandidate(env: Env, path: string): (r: Result<string, SendLayerError>)
    ensures env.fs.contents(path).Some? ==> r == Success(env.base64(env.fs.contents(path).value))
    ensures env.fs.contents(path).None? ==> r == Failure(SdkError(UnreadableMessage(path)))
  {
    match env.fs.contents(path)
    case None => Failure(SdkError(UnreadableMessage(path)))
    case Some(bytes) => Success(env.base64(bytes))
  }

  /** readLocalAttachment: the first qualifying candidate is read; none qualifying is "not found". */
  function LocalAttachment(env: Env, path: string): (r: Result<string, SendLayerError>)
    ensures var cs := Candidates(env.fs, path);
      (forall j :: 0 <= j < |cs| ==> !Qualifies(env.fs, cs[j])) ==> r == Failure(SdkError(NotFoundMessage(path)))
    ensures var cs := Candidates(env.fs, path);
      forall k :: 0 <= k < |cs| && Qualifies(env.fs, cs[k]) && (forall j :: 0 <= j < k ==> !Qualifies(env.fs, cs[j])) ==>
        r == ReadCandidate(env, cs[k].value)
  {
    var cs := Candidates(env.fs, path);
    match FirstQualifying(env.fs, cs, 0)
    case None => Failure(SdkError(NotFoundMessage(path)))
    case Some(j) => ReadCandidate(env, cs[j].value)
  }

  /** The `k`-th candidate is read exactly when it is the first one that qualifies. */
  lemma FirstQualifyingCandidateIsRead(env: Env, path: string, k: nat)
    requires k < 3
    requires Qualifies(env.fs, Candidates(env.fs, path)[k])
    requires forall j :: 0 <= j < k ==> !Qualifies(env.fs, Candidates(env.fs, path)[j])
    ensures LocalAttachment(env, path) == ReadCandidate(env, Candidates(env.fs, path)[k].value)
  {
    var cs := Candidates(env.fs, path);
    var found := FirstQualifying(env.fs, cs, 0);
    assert found == Some(k);
  }

  /** A file not found is reported only when no candidate qualifies. */
  lemma NotFoundOnlyWithoutCandidates(env: Env, path: string)
    ensures LocalAttachment(env, path) == Failure(SdkError(NotFoundMessage(path))) <==>
      forall j :: 0 <= j < 3 ==> !Qualifies(env.fs, Candidates(env.fs, path)[j])
  {
    var cs := Candidates(env.fs, path);
    var found := FirstQualifying(env.fs, cs, 0);
    if found.Some? {
      var q := cs[found.value].value;
      if env.fs.contents(q).None? {
        var unreadable := "Error reading attachment: ";
        var notFound := "Attachment file not found: ";
        assert UnreadableMessage(q) == unreadable + ("Could not read file: " + q);
        assert (unreadable + ("Could not read file: " + q))[0] == unreadable[0] == 'E';
        assert NotFoundMessage(path)[0] == notFound[0] == 'A';
      }
    }
  }

  /** readLocalAttachment as the source writes it: a loop over the candidates that returns on the first readable file. */
  method ReadLocalAttachment(env: Env, path: string) returns (r: Result<string, SendLayerError>)
    ensures r == LocalAttachment(env, path)
  {
    var paths := Candidates(env.fs, path);
    var i := 0;
    while i < |paths|
      invariant 0 <= i <= |paths|
      invariant FirstQualifying(env.fs, paths, 0) == FirstQualifying(env.fs, paths, i)
    {
      if Qualifies(env.fs, paths[i]) {
        var content := env.fs.contents(paths[i].value);
        if content.None? {
          return Failure(SdkError(UnreadableMessage(paths[i].value)));
        }
        return Success(env.base64(content.value));
      }
      i := i + 1;
    }
    return Failure(SdkError(NotFoundMessage(path)));
  }

  /** readAttachment: a valid URL is fetched remotely, anything else is searched for locally. */
  function ReadAttachment(env: Env, path: string): (r: Result<string, SendLayerError>)
    ensures env.isValidUrl(path) ==> r == RemoteAttachment(env, path)
    ensures !env.isValidUrl(path) ==> r == LocalAttachment(env, path)
  {
    if env.isValidUrl(path) then RemoteAttachment(env, path) else LocalAttachment(env, path)
  }

  /** The attachment's path as passed to the `string` parameters of readAttachment, basename and crc32. */
  function PathOf(es: seq<Entry>): Option<string> {
    var p := Lookup(es, K("path"));
    if p.Some? then StringParam(p.value) else None
  }

  /** The entry sent for one attachment. */
  function WireAttachment(env: Env, path: string, content: string, mimeType: Value): Value {
    Arr([ Entry(K("Content"), Str(content)),
          Entry(K("Type"), mimeType),
          Entry(K("Filename"), Str(env.basename(path))),
          Entry(K("Disposition"), Str("attachment")),
          Entry(K("ContentId"), Int(env.crc32(path))) ])
  }

  /** Looking a key up in a sent attachment: the first of its five keys that matches. */
  lemma WireLookup(env: Env, path: string, content: string, mimeType: Value, k: Key)
    ensures Lookup(WireAttachment(env, path, content, mimeType).entries, k) ==
      if k == K("Content") then Some(Str(content))
      else if k == K("Type") then Some(mimeType)
      else if k == K("Filename") then Some(Str(env.basename(path)))
      else if k == K("Disposition") then Some(Str("attachment"))
      else if k == K("ContentId") then Some(Int(env.crc32(path)))
      else None
  {
    var a, b, c, d, e :=
      [Entry(K("Content"), Str(content))], [Entry(K("Type"), mimeType)], [Entry(K("Filename"), Str(env.basename(path)))],
      [Entry(K("Disposition"), Str("attachment"))], [Entry(K("ContentId"), Int(env.crc32(path)))];
    assert WireAttachment(env, path, content, mimeType).entries == a + b + c + d + e;
    LookupConcat(a, b, k);
    LookupConcat(a + b, c, k);
    LookupConcat(a + b + c, d, k);
    LookupConcat(a + b + c + d, e, k);
  }

  /** What the sent attachment holds under each of its five keys. */
  lemma WireAttachmentFields(env: Env, path: string, content: string, mimeType: Value)
    ensures var w := WireAttachment(env, path, content, mimeType);
      && w.Arr?
      && Lookup(w.entries, K("Content")) == Some(Str(content))
      && Lookup(w.entries, K("Type")) == Some(mimeType)
      && Lookup(w.entries, K("Filename")) == Some(Str(env.basename(path)))
      && Lookup(w.entries, K("Disposition")) == Some(Str("attachment"))
      && Lookup(w.entries, K("ContentId")) == Some(Int(env.crc32(path)))
  {
    WireLookup(env, path, content, mimeType, K("Content"));
    WireLookup(env, path, content, mimeType, K("Type"));
    WireLookup(env, path, content, mimeType, K("Filename"));
    WireLookup(env, path, content, mimeType, K("Disposition"));
    WireLookup(env, path, content, mimeType, K("ContentId"));
  }

  /** One iteration of the attachment loop: validate, read, then describe the attachment. */
  function BuildAttachment(env: Env, a: Value): (r: Result<Value, SendLayerError>)
    ensures r.Success? <==>
      && ValidateAttachment(a).Success?
      && PathOf(a.entries).Some?
      && ReadAttachment(env, PathOf(a.entries).value).Success?
    ensures r.Success? ==> r.value == WireAttachment(env, PathOf(a.entries).value,
      ReadAttachment(env, PathOf(a.entries).value).value, Lookup(a.entries, K("type")).value)
    ensures ValidateAttachment(a).Failure? ==> r == Failure(ValidateAttachment(a).error)
    ensures ValidateAttachment(a).Success? ==> (PathOf(a.entries).None? <==> Lookup(a.entries, K("path")).value.Arr?)
    ensures ValidateAttachment(a).Success? && PathOf(a.entries).None? ==> r.Failure? && r.error.TypeError?
    ensures
      && ValidateAttachment(a).Success? && PathOf(a.entries).Some?
      && ReadAttachment(env, PathOf(a.entries).value).Failure?
      ==> r == Failure(ReadAttachment(env, PathOf(a.entries).value).error)
  {
    var es :- ValidateAttachment(a);
    match PathOf(es)
    case None => Failure(TypeError("readAttachment(): Argument #1 ($filePath) must be of type string, array given"))
    case Some(path) =>
      var content :- ReadAttachment(env, path);
      Success(WireAttachment(env, path, content, Lookup(es, K("type")).value))
  }

  /**
   * Appending `f` of each value in order under the next integer keys
   * 0, 1, ...; the first exception is raised.
   */
  function AppendEach(f: Value -> Result<Value, SendLayerError>, items: seq<Entry>): (r: Result<seq<Entry>, SendLayerError>)
    ensures r.Success? <==> forall i :: 0 <= i < |items| ==> f(items[i].val).Success?
    ensures r.Success? ==>
      && |r.value| == |items|
      && forall i :: 0 <= i < |items| ==> r.value[i] == Entry(IntKey(i), f(items[i].val).value)
    ensures r.Failure? ==> exists i :: FailsFirstAt(f, items, i, r.error)
  {
    if items == [] then Success([])
    else
      var init := items[..|items| - 1];
      var last := items[|items| - 1];
      assert forall i :: 0 <= i < |init| ==> init[i] == items[i];
      match AppendEach(f, init)
      case Failure(e) =>
        assert exists i :: FailsFirstAt(f, items, i, e) by {
          var i :| FailsFirstAt(f, init, i, e);
          assert FailsFirstAt(f, items, i, e);
        }
        Failure(e)
      case Success(done) =>
        match f(last.val)
        case Failure(e) =>
          assert FailsFirstAt(f, items, |items| - 1, e);
          Failure(e)
        case Success(w) => Success(done + [Entry(IntKey(|done|), w)])
  }

  /** Once a prefix fails, the whole list fails with the same error. */
  lemma {:induction false} AppendEachFailurePersists(f: Value -> Result<Value, SendLayerError>, items: seq<Entry>, i: nat)
    requires i <= |items| && AppendEach(f, items[..i]).Failure?
    ensures AppendEach(f, items) == AppendEach(f, items[..i])
    decreases |items| - i
  {
    if i < |items| {
      AppendEachFailurePersists(f, items[..|items| - 1], i);
      assert items[..|items| - 1][..i] == items[..i];
    } else {
      assert items[..i] == items;
    }
  }

  /** The list one longer: the prefix's outcome, then the next value's. */
  lemma AppendEachSnoc(f: Value -> Result<Value, SendLayerError>, items: seq<Entry>, i: nat)
    requires i < |items|
    ensures AppendEach(f, items[..i + 1]) ==
      match AppendEach(f, items[..i])
      case Failure(e) => Failure(e)
      case Success(done) =>
        match f(items[i].val)
        case Failure(e) => Failure(e)
        case Success(w) => Success(done + [Entry(IntKey(|done|), w)])
  {
    assert items[..i + 1][..i] == items[..i];
  }

  /** The body of the attachment loop, as a callback. */
  function AttachmentStep(env: Env): Value -> Result<Value, SendLayerError> {
    a => BuildAttachment(env, a)
  }

  /** The loop over the attachments: one described attachment per input, in input order. */
  function BuildAttachments(env: Env, items: seq<Entry>): (r: Result<seq<Entry>, SendLayerError>)
    ensures r.Success? <==> forall i :: 0 <= i < |items| ==> BuildAttachment(env, items[i].val).Success?
    ensures r.Success? ==>
      && |r.value| == |items|
      && forall i :: 0 <= i < |items| ==> r.value[i] == Entry(IntKey(i), BuildAttachment(env, items[i].val).value)
    ensures r.Failure? ==> exists i :: FailsFirstAt(AttachmentStep(env), items, i, r.error)
  {
    var f := AttachmentStep(env);
    assert forall i :: 0 <= i < |items| ==> f(items[i].val) == BuildAttachment(env, items[i].val);
    AppendEach(f, items)
  }

  // ---------------------------------------------------------------------------
  // The send pipeline
  // ---------------------------------------------------------------------------

  /** The arguments of `send`; a null group argument is `Null`, a null array argument `None`. */
  datatype EmailInput = EmailInput(
    sender: Value,
    recipients: Value,
    subject: string,
    text: Option<string>,
    html: Option<string>,
    cc: Value,
    bcc: Value,
    replyTo: Value,
    attachments: Option<seq<Entry>>,
    headers: Option<seq<Entry>>,
    tags: Option<seq<Entry>>)

  /** The message body: HTML when `html` is non-empty, the plain text otherwise. */
  datatype Content = Html(html: string) | Plain(text: string)

  /** The validated request payload, one field per key it may hold. */
  datatype Payload = Payload(
    sender: Value,
    recipients: seq<Entry>,
    subject: string,
    content: Content,
    cc: Option<seq<Entry>>,
    bcc: Option<seq<Entry>>,
    replyTo: Option<seq<Entry>>,
    attachments: Option<seq<Entry>>,
    headers: Option<seq<Entry>>,
    tags: Option<seq<Entry>>)

  const NoContentMessage := "Either 'text' or 'html' content must be provided."
  const TagsMessage := "Tags must be a list of strings."

  /** Both bodies are empty in the sense of PHP `empty()`. */
  predicate NoContent(input: EmailInput) {
    Empty(OptStr(input.text)) && Empty(OptStr(input.html))
  }

  /** `array_reduce` over the tags: every element is a string. */
  predicate AllStrings(tags: seq<Entry>) {
    forall i :: 0 <= i < |tags| ==> tags[i].val.Str?
  }

  /** The tags check: absent tags pass, present ones must all be strings and are kept verbatim. */
  function CheckTags(tags: Option<seq<Entry>>): (r: Result<Option<seq<Entry>>, SendLayerError>)
    ensures r.Success? <==> tags.None? || AllStrings(tags.value)
    ensures r.Success? ==> r.value == tags
    ensures r.Failure? ==> r.error == ValidationError(TagsMessage)
  {
    if tags.Some? && !AllStrings(tags.value) then Failure(ValidationError(TagsMessage)) else Success(tags)
  }

  /** The attachments check: absent attachments pass, present ones are all built. */
  function OptionalAttachments(env: Env, attachments: Option<seq<Entry>>): (r: Result<Option<seq<Entry>>, SendLayerError>)
    ensures attachments.None? ==> r == Success(None)
    ensures attachments.Some? ==> (r.Success? <==> BuildAttachments(env, attachments.value).Success?)
    ensures attachments.Some? && r.Success? ==> r.value == Some(BuildAttachments(env, attachments.value).value)
    ensures attachments.Some? && r.Failure? ==> r.error == BuildAttachments(env, attachments.value).error
  {
    if attachments.None? then Success(None)
    else
      var built :- BuildAttachments(env, attachments.value);
      Success(Some(built))
  }

  function ContentTypeOf(c: Content): string {
    if c.Html? then "HTML" else "Text"
  }

  /** The body chosen: `html` wins whenever it is non-empty. */
  function ContentOf(input: EmailInput): (c: Content)
    requires !NoContent(input)
    ensures c.Html? <==> !Empty(OptStr(input.html))
    ensures c.Html? ==> input.html == Some(c.html)
    ensures c.Plain? ==> input.text == Some(c.text) && !Empty(Str(c.text))
  {
    if !Empty(OptStr(input.html)) then Html(input.html.value) else Plain(input.text.value)
  }

  /** The outcome of each check `send` makes after the content check, in the order it makes them. */
  datatype Checks = Checks(
    sender: Result<Value, SendLayerError>,
    recipients: Result<seq<Entry>, SendLayerError>,
    cc: Result<Option<seq<Entry>>, SendLayerError>,
    bcc: Result<Option<seq<Entry>>, SendLayerError>,
    replyTo: Result<Option<seq<Entry>>, SendLayerError>,
    attachments: Result<Option<seq<Entry>>, SendLayerError>,
    tags: Result<Option<seq<Entry>>, SendLayerError>)

  function RunChecks(env: Env, input: EmailInput): Checks {
    Checks(
      ValidateRecipient(env, input.sender, "sender"),
      RecipientGroup(env, input.recipients, "recipient"),
      OptionalGroup(env, input.cc, "cc"),
      OptionalGroup(env, input.bcc, "bcc"),
      OptionalGroup(env, input.replyTo, "reply_to"),
      OptionalAttachments(env, input.attachments),
      CheckTags(input.tags))
  }

  /** The content check, then the other checks in order, the first failure raised; then the payload. */
  function Assemble(input: EmailInput, c: Checks): Result<Payload, SendLayerError> {
    if NoContent(input) then Failure(ValidationError(NoContentMessage))
    else
      var sender :- c.sender;
      var recipients :- c.recipients;
      var cc :- c.cc;
      var bcc :- c.bcc;
      var replyTo :- c.replyTo;
      var attachments :- c.attachments;
      var tags :- c.tags;
      Success(Payload(sender, recipients, input.subject, ContentOf(input), cc, bcc, replyTo, attachments, input.headers, tags))
  }

  /** The whole of `send` before the request. */
  function EmailPayload(env: Env, input: EmailInput): Result<Payload, SendLayerError> {
    Assemble(input, RunChecks(env, input))
  }

  /** An optional key: present with the array when the field is. */
  function OptionalEntry(name: string, o: Option<seq<Entry>>): seq<Entry> {
    if o.Some? then [Entry(K(name), Arr(o.value))] else []
  }

  function ContentEntry(c: Content): Entry {
    match c
    case Html(h) => Entry(K("HTMLContent"), Str(h))
    case Plain(t) => Entry(K("PlainContent"), Str(t))
  }

  /** The keys every payload has: From, To, Subject, ContentType and the body. */
  function HeadEntries(p: Payload): seq<Entry> {
    [ Entry(K("From"), p.sender),
      Entry(K("To"), Arr(p.recipients)),
      Entry(K("Subject"), Str(p.subject)),
      Entry(K("ContentType"), Str(ContentTypeOf(p.content))) ]
    + [ContentEntry(p.content)]
  }

  /** The payload as the PHP array sent, keys in the order they are assigned. */
  function Entries(p: Payload): seq<Entry> {
    HeadEntries(p)
    + OptionalEntry("CC", p.cc)
    + OptionalEntry("BCC", p.bcc)
    + OptionalEntry("ReplyTo", p.replyTo)
    + OptionalEntry("Attachments", p.attachments)
    + OptionalEntry("Headers", p.headers)
    + OptionalEntry("Tags", p.tags)
  }

  /** An optional key is found exactly when its field is present, holding the field's array. */
  lemma OptionalEntryLookup(name: string, o: Option<seq<Entry>>, k: Key)
    ensures Lookup(OptionalEntry(name, o), k) == if o.Some? && k == K(name) then Some(Arr(o.value)) else None
  {
  }

  /** Looking a key up in the head: the first of From, To, Subject, ContentType and the body key that matches. */
  lemma HeadLookup(p: Payload, k: Key)
    ensures Lookup(HeadEntries(p), k) ==
      if k == K("From") then Some(p.sender)
      else if k == K("To") then Some(Arr(p.recipients))
      else if k == K("Subject") then Some(Str(p.subject))
      else if k == K("ContentType") then Some(Str(ContentTypeOf(p.content)))
      else if k == ContentEntry(p.content).key then Some(ContentEntry(p.content).val)
      else None
  {
    var a, b, c, d, e :=
      [Entry(K("From"), p.sender)], [Entry(K("To"), Arr(p.recipients))], [Entry(K("Subject"), Str(p.subject))],
      [Entry(K("ContentType"), Str(ContentTypeOf(p.content)))], [ContentEntry(p.content)];
    assert HeadEntries(p) == a + b + c + d + e;
    LookupConcat(a, b, k);
    LookupConcat(a + b, c, k);
    LookupConcat(a + b + c, d, k);
    LookupConcat(a + b + c + d, e, k);
  }

  /** Looking a key up in the sent array: the head first, then each optional key in turn. */
  lemma EntriesLookupChain(p: Payload, k: Key)
    ensures Lookup(Entries(p), k) ==
      if Lookup(HeadEntries(p), k).Some? then Lookup(HeadEntries(p), k)
      else if k == K("CC") && p.cc.Some? then Some(Arr(p.cc.value))
      else if k == K("BCC") && p.bcc.Some? then Some(Arr(p.bcc.value))
      else if k == K("ReplyTo") && p.replyTo.Some? then Some(Arr(p.replyTo.value))
      else if k == K("Attachments") && p.attachments.Some? then Some(Arr(p.attachments.value))
      else if k == K("Headers") && p.headers.Some? then Some(Arr(p.headers.value))
      else if k == K("Tags") && p.tags.Some? then Some(Arr(p.tags.value))
      else None
  {
    var e0 := HeadEntries(p);
    var e1 := e0 + OptionalEntry("CC", p.cc);
    var e2 := e1 + OptionalEntry("BCC", p.bcc);
    var e3 := e2 + OptionalEntry("ReplyTo", p.replyTo);
    var e4 := e3 + OptionalEntry("Attachments", p.attachments);
    var e5 := e4 + OptionalEntry("Headers", p.headers);
    LookupConcat(e0, OptionalEntry("CC", p.cc), k);
    LookupConcat(e1, OptionalEntry("BCC", p.bcc), k);
    LookupConcat(e2, OptionalEntry("ReplyTo", p.replyTo), k);
    LookupConcat(e3, OptionalEntry("Attachments", p.attachments), k);
    LookupConcat(e4, OptionalEntry("Headers", p.headers), k);
    LookupConcat(e5, OptionalEntry("Tags", p.tags), k);
    OptionalEntryLookup("CC", p.cc, k);
    OptionalEntryLookup("BCC", p.bcc, k);
    OptionalEntryLookup("ReplyTo", p.replyTo, k);
    OptionalEntryLookup("Attachments", p.attachments, k);
    OptionalEntryLookup("Headers", p.headers, k);
    OptionalEntryLookup("Tags", p.tags, k);
  }

  /** The sent array holds exactly one of HTMLContent and PlainContent, matching its content type. */
  lemma EntriesContentKeys(p: Payload)
    ensures Lookup(Entries(p), K("ContentType")) == Some(Str(ContentTypeOf(p.content)))
    ensures Lookup(Entries(p), K("HTMLContent")) == if p.content.Html? then Some(Str(p.content.html)) else None
    ensures Lookup(Entries(p), K("PlainContent")) == if p.content.Plain? then Some(Str(p.content.text)) else None
  {
    HeadLookup(p, K("ContentType"));
    HeadLookup(p, K("HTMLContent"));
    HeadLookup(p, K("PlainContent"));
    EntriesLookupChain(p, K("ContentType"));
    EntriesLookupChain(p, K("HTMLContent"));
    EntriesLookupChain(p, K("PlainContent"));
  }

  /** Each recipient-group key of the sent array is there exactly when its group is, holding that group. */
  lemma EntriesGroupKeys(p: Payload)
    ensures Lookup(Entries(p), K("CC")) == if p.cc.Some? then Some(Arr(p.cc.value)) else None
    ensures Lookup(Entries(p), K("BCC")) == if p.bcc.Some? then Some(Arr(p.bcc.value)) else None
    ensures Lookup(Entries(p), K("ReplyTo")) == if p.replyTo.Some? then Some(Arr(p.replyTo.value)) else None
  {
    HeadLookup(p, K("CC"));
    HeadLookup(p, K("BCC"));
    HeadLookup(p, K("ReplyTo"));
    EntriesLookupChain(p, K("CC"));
    EntriesLookupChain(p, K("BCC"));
    EntriesLookupChain(p, K("ReplyTo"));
  }

  /** The Attachments, Headers and Tags keys are there exactly when their fields are, holding them. */
  lemma EntriesArrayKeys(p: Payload)
    ensures Lookup(Entries(p), K("Attachments")) == if p.attachments.Some? then Some(Arr(p.attachments.value)) else None
    ensures Lookup(Entries(p), K("Headers")) == if p.headers.Some? then Some(Arr(p.headers.value)) else None
    ensures Lookup(Entries(p), K("Tags")) == if p.tags.Some? then Some(Arr(p.tags.value)) else None
  {
    HeadLookup(p, K("Attachments"));
    HeadLookup(p, K("Headers"));
    HeadLookup(p, K("Tags"));
    EntriesLookupChain(p, K("Attachments"));
    EntriesLookupChain(p, K("Headers"));
    EntriesLookupChain(p, K("Tags"));
  }

  /** The foreach over the attachments: each one validated, read and appended in turn. */
  method AttachAll(env: Env, items: seq<Entry>) returns (r: Result<seq<Entry>, SendLayerError>)
    ensures r == BuildAttachments(env, items)
  {
    var list: seq<Entry> := [];
    var i := 0;
    while i < |items|
      invariant 0 <= i <= |items|
      invariant BuildAttachments(env, items[..i]) == Success(list)
    {
      AppendEachSnoc(AttachmentStep(env), items, i);
      var step := BuildAttachment(env, items[i].val);
      if step.Failure? {
        AppendEachFailurePersists(AttachmentStep(env), items, i + 1);
        return Failure(step.error);
      }
      list := list + [Entry(IntKey(|list|), step.value)];
      i := i + 1;
    }
    assert items[..i] == items;
    return Success(list);
  }

  /**
   * send, step by step as the source runs it: each check returns its error
   * at once, the payload grows key by key, and the attachments are appended
   * in a loop. `sent` is the request made (None when a check failed).
   */
  method Send(http: Http, env: Env, input: EmailInput) returns (r: Result<seq<Entry>, SendLayerError>, sent: Option<Request>)
    ensures sent.Some? <==> EmailPayload(env, input).Success?
    ensures sent.Some? ==> sent.value == Request(POST, "email", Json(Arr(Entries(EmailPayload(env, input).value))))
    ensures sent.Some? ==> r == MakeRequest(http.send(sent.value), http.decode)
    ensures sent.None? ==> r == Failure(EmailPayload(env, input).error)
  {
    ghost var checks := RunChecks(env, input);
    assert EmailPayload(env, input) == Assemble(input, checks);
    if Empty(OptStr(input.text)) && Empty(OptStr(input.html)) {
      return Failure(ValidationError(NoContentMessage)), None;
    }
    var sender := ValidateRecipient(env, input.sender, "sender");
    if sender.Failure? {
      return Failure(sender.error), None;
    }
    var recipients := RecipientGroup(env, input.recipients, "recipient");
    if recipients.Failure? {
      return Failure(recipients.error), None;
    }
    var content := ContentOf(input);
    var payload := [
      Entry(K("From"), sender.value),
      Entry(K("To"), Arr(recipients.value)),
      Entry(K("Subject"), Str(input.subject)),
      Entry(K("ContentType"), Str(ContentTypeOf(content)))];
    ghost var head := payload;
    if !Empty(OptStr(input.html)) {
      payload := payload + [Entry(K("HTMLContent"), Str(input.html.value))];
    } else {
      payload := payload + [Entry(K("PlainContent"), Str(input.text.value))];
    }
    assert payload == head + [ContentEntry(content)];
    var cc := OptionalGroup(env, input.cc, "cc");
    if cc.Failure? {
      return Failure(cc.error), None;
    }
    payload := payload + OptionalEntry("CC", cc.value);
    var bcc := OptionalGroup(env, input.bcc, "bcc");
    if bcc.Failure? {
      return Failure(bcc.error), None;
    }
    payload := payload + OptionalEntry("BCC", bcc.value);
    var replyTo := OptionalGroup(env, input.replyTo, "reply_to");
    if replyTo.Failure? {
      return Failure(replyTo.error), None;
    }
    payload := payload + OptionalEntry("ReplyTo", replyTo.value);
    ghost var beforeAttachments := payload;
    var attachments: Option<seq<Entry>> := None;
    if input.attachments.Some? {
      var list := AttachAll(env, input.attachments.value);
      if list.Failure? {
        return Failure(list.error), None;
      }
      payload := payload + [Entry(K("Attachments"), Arr(list.value))];
      attachments := Some(list.value);
    }
    assert payload == beforeAttachments + OptionalEntry("Attachments", attachments);
    assert OptionalAttachments(env, input.attachments) == Success(attachments);
    payload := payload + OptionalEntry("Headers", input.headers);
    if input.tags.Some? && !AllStrings(input.tags.value) {
      return Failure(ValidationError(TagsMessage)), None;
    }
    payload := payload + OptionalEntry("Tags", input.tags);
    var p := Payload(sender.value, recipients.value, input.subject, content, cc.value, bcc.value, replyTo.value,
      attachments, input.headers, input.tags);
    assert EmailPayload(env, input) == Success(p);
    assert payload == Entries(p);
    var request := Request(POST, "email", Json(Arr(payload)));
    sent := Some(request);
    r := MakeRequest(http.send(request), http.decode);
  }

  // ---------------------------------------------------------------------------
  // Properties of the send pipeline
  // ---------------------------------------------------------------------------

  /** With neither body, `send` fails before any recipient is looked at, whatever the rest. */
  lemma NoContentRejectedFirst(env: Env, input: EmailInput)
    requires NoContent(input)
    ensures EmailPayload(env, input) == Failure(ValidationError(NoContentMessage))
  {
  }

  function ErrorOf<T>(r: Result<T, SendLayerError>): Option<SendLayerError> {
    if r.Failure? then Some(r.error) else None
  }

  /** The eight checks, in order, each as the error it raises on its own (None when it passes). */
  function StageErrors(input: EmailInput, c: Checks): seq<Option<SendLayerError>> {
    [ if NoContent(input) then Some(ValidationError(NoContentMessage)) else None,
      ErrorOf(c.sender),
      ErrorOf(c.recipients),
      ErrorOf(c.cc),
      ErrorOf(c.bcc),
      ErrorOf(c.replyTo),
      ErrorOf(c.attachments),
      ErrorOf(c.tags) ]
  }

  /** The checks of `send`: content, sender, to, cc, bcc, reply-to, attachments, tags. */
  function Stages(env: Env, input: EmailInput): seq<Option<SendLayerError>> {
    StageErrors(input, RunChecks(env, input))
  }

  /** Assembly succeeds exactly when every check passes, and otherwise raises the first failing check's error. */
  lemma AssembleRaisesFirstError(input: EmailInput, c: Checks)
    ensures Assemble(input, c).Success? <==> forall i :: 0 <= i < 8 ==> StageErrors(input, c)[i].None?
    ensures Assemble(input, c).Failure? ==>
      exists i :: 0 <= i < 8 && StageErrors(input, c)[i] == Some(Assemble(input, c).error) &&
        forall j :: 0 <= j < i ==> StageErrors(input, c)[j].None?
  {
    var s := StageErrors(input, c);
    var r := Assemble(input, c);
    var first :=
      if NoContent(input) then 0
      else if c.sender.Failure? then 1
      else if c.recipients.Failure? then 2
      else if c.cc.Failure? then 3
      else if c.bcc.Failure? then 4
      else if c.replyTo.Failure? then 5
      else if c.attachments.Failure? then 6
      else if c.tags.Failure? then 7
      else 8;
    assert forall j :: 0 <= j < first ==> s[j].None?;
    if first < 8 {
      assert r.Failure? && s[first] == Some(r.error);
    } else {
      assert r.Success?;
    }
  }

  /**
   * `send` succeeds exactly when every check passes, and otherwise raises
   * the error of the first check that fails.
   */
  lemma ChecksRunInOrder(env: Env, input: EmailInput)
    ensures EmailPayload(env, input).Success? <==> forall i :: 0 <= i < 8 ==> Stages(env, input)[i].None?
    ensures EmailPayload(env, input).Failure? ==>
      exists i :: 0 <= i < 8 && Stages(env, input)[i] == Some(EmailPayload(env, input).error) &&
        forall j :: 0 <= j < i ==> Stages(env, input)[j].None?
  {
    var c := RunChecks(env, input);
    AssembleRaisesFirstError(input, c);
    assert EmailPayload(env, input) == Assemble(input, c);
    assert Stages(env, input) == StageErrors(input, c);
  }

  /** A successful payload holds what each check produced. */
  lemma PayloadFields(env: Env, input: EmailInput)
    requires EmailPayload(env, input).Success?
    ensures var c := RunChecks(env, input);
      && !NoContent(input)
      && c.sender.Success? && c.recipients.Success? && c.cc.Success? && c.bcc.Success?
      && c.replyTo.Success? && c.attachments.Success? && c.tags.Success?
      && EmailPayload(env, input).value == Payload(c.sender.value, c.recipients.value, input.subject, ContentOf(input),
           c.cc.value, c.bcc.value, c.replyTo.value, c.attachments.value, input.headers, c.tags.value)
  {
    assert EmailPayload(env, input) == Assemble(input, RunChecks(env, input));
  }

  /** The body sent: HTML whenever `html` is non-empty, the text otherwise, never both. */
  lemma ContentPrecedence(env: Env, input: EmailInput)
    requires EmailPayload(env, input).Success?
    ensures var es := Entries(EmailPayload(env, input).value);
      && (Lookup(es, K("ContentType")) == Some(Str("HTML")) <==> !Empty(OptStr(input.html)))
      && (Lookup(es, K("ContentType")) == Some(Str("Text")) <==> Empty(OptStr(input.html)))
      && (!Empty(OptStr(input.html)) ==>
            Lookup(es, K("HTMLContent")) == Some(Str(input.html.value)) && Lookup(es, K("PlainContent")).None?)
      && (Empty(OptStr(input.html)) ==>
            Lookup(es, K("PlainContent")) == Some(Str(input.text.value)) && Lookup(es, K("HTMLContent")).None?)
  {
    PayloadFields(env, input);
    EntriesContentKeys(EmailPayload(env, input).value);
  }

  /**
   * CC, BCC, ReplyTo, Attachments, Headers and Tags are sent exactly when
   * their argument is not null; headers and tags go out verbatim.
   */
  lemma OptionalKeysFollowArguments(env: Env, input: EmailInput)
    requires EmailPayload(env, input).Success?
    ensures var es := Entries(EmailPayload(env, input).value);
      && (Lookup(es, K("CC")).Some? <==> !input.cc.Null?)
      && (Lookup(es, K("BCC")).Some? <==> !input.bcc.Null?)
      && (Lookup(es, K("ReplyTo")).Some? <==> !input.replyTo.Null?)
      && (Lookup(es, K("Attachments")).Some? <==> input.attachments.Some?)
      && Lookup(es, K("Headers")) == (if input.headers.Some? then Some(Arr(input.headers.value)) else None)
      && Lookup(es, K("Tags")) == (if input.tags.Some? then Some(Arr(input.tags.value)) else None)
  {
    PayloadFields(env, input);
    var p := EmailPayload(env, input).value;
    assert p.cc.Some? <==> !input.cc.Null?;
    assert p.bcc.Some? <==> !input.bcc.Null?;
    assert p.replyTo.Some? <==> !input.replyTo.Null?;
    assert p.attachments.Some? <==> input.attachments.Some?;
    assert p.headers == input.headers && p.tags == input.tags;
    EntriesGroupKeys(p);
    EntriesArrayKeys(p);
  }

  /**
   * Every recipient argument goes out normalised: the sender validated, and
   * each group (to always, cc, bcc and reply-to when not null) one validated
   * entry per element of its list, keys kept.
   */
  lemma GroupsAreNormalised(env: Env, input: EmailInput)
    requires EmailPayload(env, input).Success?
    ensures var p := EmailPayload(env, input).value;
      && ValidateRecipient(env, input.sender, "sender") == Success(p.sender)
      && NormalisedGroup(env, p.recipients, input.recipients, "recipient")
      && (!input.cc.Null? ==> p.cc.Some? && NormalisedGroup(env, p.cc.value, input.cc, "cc"))
      && (!input.bcc.Null? ==> p.bcc.Some? && NormalisedGroup(env, p.bcc.value, input.bcc, "bcc"))
      && (!input.replyTo.Null? ==> p.replyTo.Some? && NormalisedGroup(env, p.replyTo.value, input.replyTo, "reply_to"))
  {
    PayloadFields(env, input);
  }

  /**
   * Each sent attachment describes its input, in input order: the input's
   * type, the basename and crc32 of its path, the encoded content of its file,
   * disposition `attachment`.
   */
  lemma AttachmentsFollowInputs(env: Env, items: seq<Entry>, i: nat)
    requires BuildAttachments(env, items).Success? && i < |items|
    ensures var out := BuildAttachments(env, items).value;
      && |out| == |items|
      && out[i].key == IntKey(i)
      && items[i].val.Arr? && PathOf(items[i].val.entries).Some?
      && var path := PathOf(items[i].val.entries).value;
         var w := out[i].val;
         && ReadAttachment(env, path).Success?
         && w.Arr?
         && Lookup(w.entries, K("Content")) == Some(Str(ReadAttachment(env, path).value))
         && Lookup(w.entries, K("Type")) == Lookup(items[i].val.entries, K("type"))
         && Lookup(w.entries, K("Filename")) == Some(Str(env.basename(path)))
         && Lookup(w.entries, K("Disposition")) == Some(Str("attachment"))
         && Lookup(w.entries, K("ContentId")) == Some(Int(env.crc32(path)))
  {
    var f := a => BuildAttachment(env, a);
    assert f(items[i].val).Success?;
    var es := items[i].val.entries;
    var path := PathOf(es).value;
    WireAttachmentFields(env, path, ReadAttachment(env, path).value, Lookup(es, K("type")).value);
  }
}
