/**
 * The upload worker (worker.py): it polls `inbox/` for job files, reads the
 * credentials file, uploads the episode audio and files the job pair under
 * `processed/` or `failed/`.
 *
 * The three directories are maps from flat file name to content. The uploader is an
 * oracle: a function from the request it is given to Published, Refused (it
 * returned False) or Raised (it raised an exception).
 */
module Worker {
  import opened Wrappers
  import opened JsonDoc
  import opened Paths

  const InboxDir := "inbox"

  /** The content of a file: raw bytes, or a document `json.load` can read. */
  datatype Content = Blob(bytes: seq<bv8>) | Json(text: JsonText)

  /** What `json.load` yields for a file; raw bytes are not JSON text. */
  function Parse(c: Content): JsonText {
    match c
    case Blob(_) => Malformed
    case Json(t) => t
  }

  // ---------------------------------------------------------------------------
  // Credentials (worker.py:15-27)

  /**
   * The credentials file: missing, present but not decodable as text (reading it
   * raises UnicodeDecodeError), or present with some text.
   */
  datatype SecretsFile = Absent | Undecodable | Present(text: JsonText)

  datatype Credentials = Credentials(login: string, password: string)

  predicate HasValue(fields: map<string, string>, key: string) {
    key in fields && fields[key] != ""
  }

  /**
   * `get_secrets`: both values when the file is a JSON object whose login and
   * password are both non-empty; `(None, None)` otherwise, a read or parse error
   * or a non-object document (whose `.get` raises) included.
   */
  function GetSecrets(f: SecretsFile): (r: Option<Credentials>)
    ensures r.Some? <==>
      f.Present? && f.text.Object? && HasValue(f.text.fields, "vodio_login") && HasValue(f.text.fields, "vodio_password")
    ensures r.Some? ==>
      r.value.login == f.text.fields["vodio_login"] && r.value.password == f.text.fields["vodio_password"]
    ensures r.Some? ==> r.value.login != "" && r.value.password != ""
  {
    match f
    case Present(Object(fields)) =>
      if HasValue(fields, "vodio_login") && HasValue(fields, "vodio_password") then
        Some(Credentials(fields["vodio_login"], fields["vodio_password"]))
      else None
    case _ => None
  }

  // ---------------------------------------------------------------------------
  // One job (worker.py:46-114)

  datatype Dirs = Dirs(inbox: map<string, Content>, processed: map<string, Content>, failed: map<string, Content>)

  /** What the uploader is asked to do: log in, then publish the audio with a title and description. */
  datatype UploadCall = UploadCall(login: string, password: string, audioPath: string, title: string, description: string)

  datatype UploadResult = Published | Refused | Raised

  /** How worker.py:83,85 reaches the uploader: as written, or as the uploader class declares it. */
  datatype Binding = AsWritten | Corrected

  datatype Outcome =
    | InvalidJson    // the job file is not JSON: it alone went to failed/
    | NoCredentials  // nothing moved; the job is seen again on the next scan
    | AudioMissing   // the referenced audio is not in inbox/: the job file went to failed/
    | Archived       // uploaded: both files went to processed/
    | UploadFailed   // the upload returned False or raised: the files went to failed/
    | Crashed        // an exception escaped process_job

  /** The request built from a job document (worker.py:65-69). */
  function RequestFor(fields: map<string, string>, creds: Credentials): UploadCall
    requires "mp3_file" in fields
  {
    UploadCall(creds.login, creds.password, Join(InboxDir, fields["mp3_file"]),
               GetOr(fields, "title", "Untitled"), GetOr(fields, "description", ""))
  }

  /**
   * The result of worker.py:83-85. As written, `VodioUploader(login, password,
   * headless=True)` passes three arguments to a constructor that takes only
   * `headless` (vodio_uploader.py:6), so a TypeError is raised before any upload;
   * corrected, `upload_episode(login, password, path, title, description)`
   * (vodio_uploader.py:9) is the oracle's answer.
   */
  function Attempt(binding: Binding, uploader: UploadCall -> UploadResult, call: UploadCall): (r: UploadResult)
    ensures binding == AsWritten ==> r == Raised
    ensures binding == Corrected ==> r == uploader(call)
  {
    match binding
    case AsWritten => Raised
    case Corrected => uploader(call)
  }

  /**
   * "", "." and "..": joined to a directory they name a directory, which
   * `os.path.exists` accepts and `os.remove` refuses.
   */
  predicate NamesDirectory(name: string) {
    name == "" || name == "." || name == ".."
  }

  /**
   * `process_job(inbox/<job>)`, as a relation from the directories before to the
   * directories after, with what happened.
   */
  function Process(d: Dirs, job: string, secrets: SecretsFile, uploader: UploadCall -> UploadResult, binding: Binding): (Dirs, Outcome)
  {
    if job !in d.inbox then
      // open() raises; the handler's shutil.move of the missing file raises again
      (d, Crashed)
    else
      var doc := d.inbox[job];
      if Parse(doc).Malformed? then
        (d.(inbox := d.inbox - {job}, failed := d.failed[job := doc]), InvalidJson)
      else if GetSecrets(secrets).None? then
        (d, NoCredentials)
      else if !Parse(doc).Object? || "mp3_file" !in Parse(doc).fields then
        // `.get` on a non-object, or os.path.join(INBOX_DIR, None): raised outside the try
        (d, Crashed)
      else
        var fields := Parse(doc).fields;
        var audio := fields["mp3_file"];
        if NamesDirectory(audio) then
          // the upload is attempted with the directory's path; on success the archive
          // removes processed/<job> and then raises removing the directory, and the
          // handler moves the job file to failed/ and raises removing failed/ itself
          var published := Attempt(binding, uploader, RequestFor(fields, GetSecrets(secrets).value)) == Published;
          (Dirs(d.inbox - {job}, if published then d.processed - {job} else d.processed, d.failed[job := doc]), Crashed)
        else if audio !in d.inbox then
          (d.(inbox := d.inbox - {job}, failed := d.failed[job := doc]), AudioMissing)
        else if Attempt(binding, uploader, RequestFor(fields, GetSecrets(secrets).value)) == Published then
          if audio == job then
            // the job file was its own audio: the second move raises, and the
            // handler's move of the already-moved job file raises out of process_job
            (Dirs(d.inbox - {job}, d.processed[job := doc], d.failed - {job}), Crashed)
          else
            (Dirs(d.inbox - {job, audio}, d.processed[job := doc][audio := d.inbox[audio]], d.failed), Archived)
        else if audio == job then
          (d.(inbox := d.inbox - {job}, failed := d.failed[job := doc]), UploadFailed)
        else
          (d.(inbox := d.inbox - {job, audio}, failed := d.failed[job := doc][audio := d.inbox[audio]]), UploadFailed)
  }

  /**
   * What each outcome means: the job file leaves inbox/ on every outcome but
   * NoCredentials and Crashed, for processed/ when archived, which only the
   * corrected uploader call can give, and for failed/ otherwise; invalid JSON and
   * missing credentials are told apart before anything else, and without
   * credentials nothing changes.
   */
  lemma ProcessOutcomes(d: Dirs, job: string, secrets: SecretsFile, uploader: UploadCall -> UploadResult, binding: Binding)
    ensures var (d', o) := Process(d, job, secrets, uploader, binding);
      && (o == InvalidJson <==> job in d.inbox && Parse(d.inbox[job]).Malformed?)
      && (o == NoCredentials <==> job in d.inbox && !Parse(d.inbox[job]).Malformed? && GetSecrets(secrets).None?)
      && (o == NoCredentials ==> d' == d)
      && (o == Archived ==> binding == Corrected)
      && (o != NoCredentials && o != Crashed ==> job in d.inbox && job !in d'.inbox)
      && (o == Archived ==> job in d'.processed && d'.processed[job] == d.inbox[job] && d'.failed == d.failed)
      && (o == InvalidJson || o == AudioMissing || o == UploadFailed ==>
            job in d'.failed && d'.failed[job] == d.inbox[job] && d'.processed == d.processed)
  {
  }

  /** `m2` is `m1` with some entries removed and none added or changed. */
  predicate Shrunk(m1: map<string, Content>, m2: map<string, Content>) {
    m2.Keys <= m1.Keys && forall n :: n in m2 ==> m2[n] == m1[n]
  }

  /**
   * The worker never writes into inbox/, and deletes from processed/ only the job's
   * own name, and that only on its way to a crash.
   */
  lemma ProcessOnlyDrainsInbox(d: Dirs, job: string, secrets: SecretsFile, uploader: UploadCall -> UploadResult, binding: Binding)
    ensures Shrunk(d.inbox, Process(d, job, secrets, uploader, binding).0.inbox)
    ensures d.processed.Keys - {job} <= Process(d, job, secrets, uploader, binding).0.processed.Keys
    ensures Process(d, job, secrets, uploader, binding).1 != Crashed ==>
      d.processed.Keys <= Process(d, job, secrets, uploader, binding).0.processed.Keys
  {
  }

  /** worker.py:48-54: a job file that is not JSON goes alone to failed/; its audio stays. */
  lemma InvalidJsonMovesOnlyTheJobFile(d: Dirs, job: string, secrets: SecretsFile, uploader: UploadCall -> UploadResult, binding: Binding)
    requires job in d.inbox && Parse(d.inbox[job]).Malformed?
    ensures Process(d, job, secrets, uploader, binding) ==
      (Dirs(d.inbox - {job}, d.processed, d.failed[job := d.inbox[job]]), InvalidJson)
  {
  }

  /** worker.py:57-62: without credentials nothing moves, so the job is met again on every scan. */
  lemma NoCredentialsMovesNothing(d: Dirs, job: string, secrets: SecretsFile, uploader: UploadCall -> UploadResult, binding: Binding)
    requires job in d.inbox && !Parse(d.inbox[job]).Malformed?
    requires GetSecrets(secrets).None?
    ensures Process(d, job, secrets, uploader, binding) == (d, NoCredentials)
  {
  }

  /** worker.py:69: a job object without `mp3_file` raises outside the try; nothing has moved. */
  lemma MissingAudioKeyCrashes(d: Dirs, job: string, secrets: SecretsFile, uploader: UploadCall -> UploadResult, binding: Binding)
    requires job in d.inbox && Parse(d.inbox[job]).Object? && "mp3_file" !in Parse(d.inbox[job]).fields
    requires GetSecrets(secrets).Some?
    ensures Process(d, job, secrets, uploader, binding) == (d, Crashed)
  {
  }

  /** worker.py:71-75: audio not in inbox/: the job file alone goes to failed/. */
  lemma MissingAudioFailsTheJobFile(d: Dirs, job: string, secrets: SecretsFile, uploader: UploadCall -> UploadResult, binding: Binding)
    requires job in d.inbox && Parse(d.inbox[job]).Object? && "mp3_file" in Parse(d.inbox[job]).fields
    requires GetSecrets(secrets).Some?
    requires !NamesDirectory(Parse(d.inbox[job]).fields["mp3_file"])
    requires Parse(d.inbox[job]).fields["mp3_file"] !in d.inbox
    ensures Process(d, job, secrets, uploader, binding) ==
      (Dirs(d.inbox - {job}, d.processed, d.failed[job := d.inbox[job]]), AudioMissing)
  {
  }

  /** The preconditions under which the upload is attempted for a distinct audio file. */
  predicate Uploadable(d: Dirs, job: string, secrets: SecretsFile) {
    && job in d.inbox && Parse(d.inbox[job]).Object?
    && "mp3_file" in Parse(d.inbox[job]).fields
    && GetSecrets(secrets).Some?
    && !NamesDirectory(Parse(d.inbox[job]).fields["mp3_file"])
    && Parse(d.inbox[job]).fields["mp3_file"] in d.inbox
    && Parse(d.inbox[job]).fields["mp3_file"] != job
  }

  function AudioOf(d: Dirs, job: string): string
    requires job in d.inbox && Parse(d.inbox[job]).Object? && "mp3_file" in Parse(d.inbox[job]).fields
  {
    Parse(d.inbox[job]).fields["mp3_file"]
  }

  function CallOf(d: Dirs, job: string, secrets: SecretsFile): UploadCall
    requires Uploadable(d, job, secrets)
  {
    RequestFor(Parse(d.inbox[job]).fields, GetSecrets(secrets).value)
  }

  /**
   * worker.py:87-114 with the corrected uploader: the job is archived exactly when
   * the upload succeeds; either way both files leave inbox/ and land together in
   * processed/ (replacing same-named files) or in failed/, and the other
   * directory is untouched.
   */
  lemma {:induction false} CorrectedRoutesBothFiles(d: Dirs, job: string, secrets: SecretsFile, uploader: UploadCall -> UploadResult)
    requires Uploadable(d, job, secrets)
    ensures var (d', o) := Process(d, job, secrets, uploader, Corrected);
      var audio := AudioOf(d, job);
      && (o == Archived <==> uploader(CallOf(d, job, secrets)) == Published)
      && (o == Archived || o == UploadFailed)
      && d'.inbox == d.inbox - {job, audio}
      && (o == Archived ==>
            d'.processed == d.processed[job := d.inbox[job]][audio := d.inbox[audio]] && d'.failed == d.failed)
      && (o == UploadFailed ==>
            d'.failed == d.failed[job := d.inbox[job]][audio := d.inbox[audio]] && d'.processed == d.processed)
  {
  }

  /** Finding, as written: the uploader is never reached, so no job is ever archived. */
  lemma AsWrittenNeverArchives(d: Dirs, job: string, secrets: SecretsFile, uploader: UploadCall -> UploadResult)
    ensures Process(d, job, secrets, uploader, AsWritten).1 != Archived
    ensures Process(d, job, secrets, uploader, AsWritten).0.processed == d.processed
  {
  }

  /**
   * worker.py:69-114 for an `mp3_file` of "", "." or "..": the path names inbox/
   * itself (or a directory above it), which exists, so the upload is attempted;
   * both the archive and the handler then try to `os.remove` a directory, and the
   * second error escapes. The job file has gone to failed/, and a successful upload
   * has also cost processed/ its namesake.
   */
  lemma DirectoryAudioCrashes(d: Dirs, job: string, secrets: SecretsFile, uploader: UploadCall -> UploadResult, binding: Binding)
    requires job in d.inbox && Parse(d.inbox[job]).Object? && "mp3_file" in Parse(d.inbox[job]).fields
    requires GetSecrets(secrets).Some?
    requires NamesDirectory(AudioOf(d, job))
    ensures var published := Attempt(binding, uploader, RequestFor(Parse(d.inbox[job]).fields, GetSecrets(secrets).value)) == Published;
      Process(d, job, secrets, uploader, binding) ==
        (Dirs(d.inbox - {job}, if published then d.processed - {job} else d.processed, d.failed[job := d.inbox[job]]), Crashed)
  {
  }

  /**
   * Once the job is readable, credentialed and names an audio file other than
   * itself, the job file leaves inbox/ and lands in processed/ or failed/, never both.
   */
  lemma {:induction false} RoutedJobLandsOnce(d: Dirs, job: string, secrets: SecretsFile, uploader: UploadCall -> UploadResult, binding: Binding)
    requires job in d.inbox && Parse(d.inbox[job]).Object? && "mp3_file" in Parse(d.inbox[job]).fields
    requires GetSecrets(secrets).Some?
    requires !NamesDirectory(AudioOf(d, job)) && AudioOf(d, job) != job
    ensures var (d', o) := Process(d, job, secrets, uploader, binding);
      && job !in d'.inbox
      && (o == Archived ==> d'.processed[job] == d.inbox[job] && d'.failed == d.failed)
      && (o != Archived ==> d'.failed[job] == d.inbox[job] && d'.processed == d.processed)
  {
  }

  // ---------------------------------------------------------------------------
  // One scan of the inbox (worker.py:128-132)

  /**
   * The names `glob(os.path.join(INBOX_DIR, "*.json"))` matches: ending in ".json"
   * and not hidden, so some non-empty stem that does not start with '.' followed by
   * ".json".
   */
  function IsJobFile(name: string): (r: bool)
    ensures r <==> exists stem :: name == stem + ".json" && stem != [] && stem[0] != '.'
  {
    if EndsWith(name, ".json") && !StartsWith(name, ".") then
      assert name == name[..|name| - 5] + ".json";
      true
    else
      assert forall stem :: name == stem + ".json" ==> EndsWith(name, ".json") && (stem != [] ==> name[0] == stem[0]);
      false
  }

  function JobFiles(inbox: map<string, Content>): set<string> {
    set n | n in inbox && IsJobFile(n)
  }

  /** The jobs of one scan processed in order; an exception ends the scan and the worker. */
  function Batch(d: Dirs, listing: seq<string>, secrets: SecretsFile, uploader: UploadCall -> UploadResult, binding: Binding): (Dirs, seq<Outcome>)
    decreases |listing|
  {
    if listing == [] then (d, [])
    else
      var (d1, o) := Process(d, listing[0], secrets, uploader, binding);
      if o == Crashed then (d1, [o])
      else
        var (d2, os) := Batch(d1, listing[1..], secrets, uploader, binding);
        (d2, [o] + os)
  }

  /**
   * A scan reports at most one outcome per listed job, and only its last outcome
   * can be a crash; a scan that stops before the end of the listing stops at a crash.
   */
  lemma {:induction false} BatchStopsAtCrash(d: Dirs, listing: seq<string>, secrets: SecretsFile, uploader: UploadCall -> UploadResult, binding: Binding)
    ensures var os := Batch(d, listing, secrets, uploader, binding).1;
      && |os| <= |listing|
      && (forall i :: 0 <= i < |os| - 1 ==> os[i] != Crashed)
      && (|os| < |listing| ==> |os| > 0 && os[|os| - 1] == Crashed)
    decreases |listing|
  {
    if listing != [] {
      var (d1, o) := Process(d, listing[0], secrets, uploader, binding);
      if o != Crashed {
        BatchStopsAtCrash(d1, listing[1..], secrets, uploader, binding);
        var os := Batch(d1, listing[1..], secrets, uploader, binding).1;
        assert Batch(d, listing, secrets, uploader, binding).1 == [o] + os;
        assert forall i :: 1 <= i < |os| + 1 ==> ([o] + os)[i] == os[i - 1];
      }
    }
  }

  /** One step of a scan: the first job, then the rest unless it crashed. */
  lemma BatchStep(d: Dirs, listing: seq<string>, secrets: SecretsFile, uploader: UploadCall -> UploadResult, binding: Binding)
    requires listing != []
    ensures var (d1, o) := Process(d, listing[0], secrets, uploader, binding);
      var rest := Batch(d1, listing[1..], secrets, uploader, binding);
      Batch(d, listing, secrets, uploader, binding) == if o == Crashed then (d1, [o]) else (rest.0, [o] + rest.1)
  {
  }

  /** One pass of the main loop: `listing` is what the glob found in `before`, and `after` is what `Batch` leaves. */
  ghost predicate ScannedPass(before: Dirs, listing: seq<string>, after: Dirs, secrets: SecretsFile,
                              uploader: UploadCall -> UploadResult, binding: Binding) {
    && Lists(listing, JobFiles(before.inbox))
    && after == Batch(before, listing, secrets, uploader, binding).0
  }

  /**
   * `trace[i]` are the directories before pass `i` and `trace[i + 1]` after it;
   * each pass is a `Batch` over what its glob listed, and no pass but the last
   * crashed.
   */
  ghost predicate RanPasses(start: Dirs, trace: seq<Dirs>, listings: seq<seq<string>>, secretsAt: nat -> SecretsFile,
                            uploader: UploadCall -> UploadResult, binding: Binding) {
    && |trace| == |listings| + 1 && trace[0] == start
    && (forall i :: 0 <= i < |listings| ==> ScannedPass(trace[i], listings[i], trace[i + 1], secretsAt(i), uploader, binding))
    && (forall i :: 0 <= i < |listings| - 1 ==> Crashed !in Batch(trace[i], listings[i], secretsAt(i), uploader, binding).1)
  }

  /**
   * `passes` passes ran from `start`, as `RanPasses` records them, and `last` is
   * what the last of them returned.
   */
  ghost predicate RunSoFar(start: Dirs, trace: seq<Dirs>, listings: seq<seq<string>>, passes: nat, last: seq<Outcome>,
                           secretsAt: nat -> SecretsFile, uploader: UploadCall -> UploadResult, binding: Binding) {
    && RanPasses(start, trace, listings, secretsAt, uploader, binding)
    && |listings| == passes
    && (passes > 0 ==> last == Batch(trace[passes - 1], listings[passes - 1], secretsAt(passes - 1), uploader, binding).1)
  }

  /** A pass after a pass that did not crash extends the run. */
  lemma RanOneMorePass(start: Dirs, trace: seq<Dirs>, listings: seq<seq<string>>, secretsAt: nat -> SecretsFile,
                       uploader: UploadCall -> UploadResult, binding: Binding, listing: seq<string>, after: Dirs)
    requires RanPasses(start, trace, listings, secretsAt, uploader, binding)
    requires |listings| > 0 ==>
               Crashed !in Batch(trace[|listings| - 1], listings[|listings| - 1], secretsAt(|listings| - 1), uploader, binding).1
    requires Lists(listing, JobFiles(trace[|listings|].inbox))
    requires after == Batch(trace[|listings|], listing, secretsAt(|listings|), uploader, binding).0
    ensures RanPasses(start, trace + [after], listings + [listing], secretsAt, uploader, binding)
  {
    var t, l := trace + [after], listings + [listing];
    forall i | 0 <= i < |l|
      ensures ScannedPass(t[i], l[i], t[i + 1], secretsAt(i), uploader, binding)
    {
      if i < |listings| {
        assert t[i] == trace[i] && t[i + 1] == trace[i + 1] && l[i] == listings[i];
      }
    }
    forall i | 0 <= i < |l| - 1
      ensures Crashed !in Batch(t[i], l[i], secretsAt(i), uploader, binding).1
    {
      assert t[i] == trace[i] && l[i] == listings[i];
    }
  }

  lemma ShrunkTransitive(a: map<string, Content>, b: map<string, Content>, c: map<string, Content>)
    requires Shrunk(a, b) && Shrunk(b, c)
    ensures Shrunk(a, c)
  {
  }

  /**
   * A scan never adds to inbox/; it loses a name from processed/ only when it ends
   * in a crash, and then only a listed job's name.
   */
  lemma {:induction false} BatchOnlyDrainsInbox(d: Dirs, listing: seq<string>, secrets: SecretsFile, uploader: UploadCall -> UploadResult, binding: Binding)
    ensures Shrunk(d.inbox, Batch(d, listing, secrets, uploader, binding).0.inbox)
    ensures Crashed !in Batch(d, listing, secrets, uploader, binding).1 ==>
      d.processed.Keys <= Batch(d, listing, secrets, uploader, binding).0.processed.Keys
    ensures forall n :: n in d.processed && n !in listing ==> n in Batch(d, listing, secrets, uploader, binding).0.processed
    decreases |listing|
  {
    if listing != [] {
      var (d1, o) := Process(d, listing[0], secrets, uploader, binding);
      ProcessOnlyDrainsInbox(d, listing[0], secrets, uploader, binding);
      if o != Crashed {
        var (d2, os) := Batch(d1, listing[1..], secrets, uploader, binding);
        BatchOnlyDrainsInbox(d1, listing[1..], secrets, uploader, binding);
        ShrunkTransitive(d.inbox, d1.inbox, d2.inbox);
        assert Batch(d, listing, secrets, uploader, binding) == (d2, [o] + os);
        assert listing == [listing[0]] + listing[1..];
      }
    }
  }

  /**
   * worker.py:57-62 over a whole scan: with no credentials, and every listed job
   * file readable JSON, the scan changes nothing, so the same jobs are met again
   * on the next scan, without end.
   */
  lemma {:induction false} NoCredentialsScanChangesNothing(d: Dirs, listing: seq<string>, secrets: SecretsFile, uploader: UploadCall -> UploadResult, binding: Binding)
    requires GetSecrets(secrets).None?
    requires forall n :: n in listing ==> n in d.inbox && !Parse(d.inbox[n]).Malformed?
    ensures Batch(d, listing, secrets, uploader, binding).0 == d
    ensures forall o :: o in Batch(d, listing, secrets, uploader, binding).1 ==> o == NoCredentials
    decreases |listing|
  {
    if listing != [] {
      NoCredentialsMovesNothing(d, listing[0], secrets, uploader, binding);
      NoCredentialsScanChangesNothing(d, listing[1..], secrets, uploader, binding);
    }
  }

  // ---------------------------------------------------------------------------
  // The worker's directories, updated in place

  datatype Dir = Inbox | Processed | Failed

  class Spool {
    var inbox: map<string, Content>
    var processed: map<string, Content>
    var failed: map<string, Content>

    function State(): Dirs
      reads this
    {
      Dirs(inbox, processed, failed)
    }

    function Files(dir: Dir): map<string, Content>
      reads this
    {
      match dir
      case Inbox => inbox
      case Processed => processed
      case Failed => failed
    }

    /** `os.makedirs(..., exist_ok=True)` for the three directories: what is there stays. */
    constructor (inbox0: map<string, Content>, processed0: map<string, Content>, failed0: map<string, Content>)
      ensures State() == Dirs(inbox0, processed0, failed0)
    {
      inbox, processed, failed := inbox0, processed0, failed0;
    }

    method SetFiles(dir: Dir, m: map<string, Content>)
      modifies this
      ensures Files(dir) == m
      ensures dir != Inbox ==> inbox == old(inbox)
      ensures dir != Processed ==> processed == old(processed)
      ensures dir != Failed ==> failed == old(failed)
    {
      match dir
      case Inbox => inbox := m;
      case Processed => processed := m;
      case Failed => failed := m;
    }

    /** `if os.path.exists(p): os.remove(p)` */
    method RemoveIfExists(dir: Dir, name: string)
      modifies this
      ensures Files(dir) == old(Files(dir)) - {name}
      ensures dir != Inbox ==> inbox == old(inbox)
      ensures dir != Processed ==> processed == old(processed)
      ensures dir != Failed ==> failed == old(failed)
    {
      SetFiles(dir, Files(dir) - {name});
    }

    /** `shutil.move(from/name, to/name)`: replaces a same-named target; raises (ok == false) when the source is missing. */
    method Move(from: Dir, name: string, to: Dir) returns (ok: bool)
      requires from != to
      modifies this
      ensures ok <==> name in old(Files(from))
      ensures ok ==> Files(from) == old(Files(from)) - {name} && Files(to) == old(Files(to))[name := old(Files(from))[name]]
      ensures !ok ==> Files(from) == old(Files(from)) && Files(to) == old(Files(to))
      ensures from != Inbox && to != Inbox ==> inbox == old(inbox)
      ensures from != Processed && to != Processed ==> processed == old(processed)
      ensures from != Failed && to != Failed ==> failed == old(failed)
    {
      ok := name in Files(from);
      if ok {
        var content := Files(from)[name];
        SetFiles(to, Files(to)[name := content]);
        SetFiles(from, Files(from) - {name});
      }
    }

    /**
     * The archive step (worker.py:91-98): clear both names in processed/, then move
     * the job file and the audio there. When the job file is its own audio the
     * second move finds nothing and raises.
     */
    method Archive(job: string, audio: string) returns (ok: bool)
      requires job in inbox && audio in inbox
      modifies this
      ensures ok <==> audio != job
      ensures ok ==> State() == Dirs(old(inbox) - {job, audio},
                                     old(processed)[job := old(inbox)[job]][audio := old(inbox)[audio]], old(failed))
      ensures !ok ==> State() == Dirs(old(inbox) - {job}, old(processed)[job := old(inbox)[job]], old(failed))
    {
      RemoveIfExists(Processed, job);
      RemoveIfExists(Processed, audio);
      var jobMoved := Move(Inbox, job, Processed);
      ok := Move(Inbox, audio, Processed);
    }

    /**
     * The except branch (worker.py:106-114): the job file replaces its namesake in
     * failed/, then the audio does too if it is still in inbox/. The move of a job
     * file that is no longer there raises (ok == false).
     */
    method FileAsFailed(job: string, audio: string) returns (ok: bool)
      modifies this
      ensures ok <==> job in old(inbox)
      ensures !ok ==> State() == Dirs(old(inbox), old(processed), old(failed) - {job})
      ensures ok && (audio == job || audio !in old(inbox)) ==>
        State() == Dirs(old(inbox) - {job}, old(processed), old(failed)[job := old(inbox)[job]])
      ensures ok && audio != job && audio in old(inbox) ==>
        State() == Dirs(old(inbox) - {job, audio}, old(processed), old(failed)[job := old(inbox)[job]][audio := old(inbox)[audio]])
    {
      RemoveIfExists(Failed, job);
      ok := Move(Inbox, job, Failed);
      if ok && audio in inbox {
        RemoveIfExists(Failed, audio);
        var _ := Move(Inbox, audio, Failed);
      }
    }

    /**
     * worker.py:87-114 when the audio path names a directory: a successful upload
     * removes processed/<job> before the archive's `os.remove` of the directory
     * raises; the handler then moves the job file to failed/, and its own
     * `os.remove` of a directory raises out of `process_job`.
     */
    method FailOnDirectory(job: string, published: bool)
      requires job in inbox
      modifies this
      ensures State() == Dirs(old(inbox) - {job}, if published then old(processed) - {job} else old(processed),
                              old(failed)[job := old(inbox)[job]])
    {
      if published {
        RemoveIfExists(Processed, job);
      }
      RemoveIfExists(Failed, job);
      var _ := Move(Inbox, job, Failed);
      assert (old(failed) - {job})[job := old(inbox)[job]] == old(failed)[job := old(inbox)[job]];
    }

    /** `process_job(inbox/<job>)`, step by step, with the uploader reached as `binding` says. */
    method ProcessJob(job: string, secrets: SecretsFile, uploader: UploadCall -> UploadResult, binding: Binding) returns (outcome: Outcome)
      modifies this
      ensures (State(), outcome) == Process(old(State()), job, secrets, uploader, binding)
    {
      // 1. read the job file
      if job !in inbox || Parse(inbox[job]).Malformed? {
        var moved := Move(Inbox, job, Failed);
        return if moved then InvalidJson else Crashed;
      }
      var doc := inbox[job];
      // 2. credentials
      var creds := GetSecrets(secrets);
      if creds.None? {
        return NoCredentials;
      }
      // 3. job fields, read outside the try
      if !Parse(doc).Object? || "mp3_file" !in Parse(doc).fields {
        return Crashed;
      }
      var fields := Parse(doc).fields;
      var audio := fields["mp3_file"];
      // 4. the audio file; a directory's path exists too, but cannot be removed
      if NamesDirectory(audio) {
        var attempted := Attempt(binding, uploader, RequestFor(fields, creds.value));
        FailOnDirectory(job, attempted == Published);
        return Crashed;
      }
      if audio !in inbox {
        var _ := Move(Inbox, job, Failed);
        return AudioMissing;
      }
      // 5. upload, then archive; a failed archive falls into the except branch
      var result := Attempt(binding, uploader, RequestFor(fields, creds.value));
      if result == Published {
        var archived := Archive(job, audio);
        if archived {
          return Archived;
        }
      }
      var filed := FileAsFailed(job, audio);
      return if filed then UploadFailed else Crashed;
    }

    /** The names `glob(os.path.join(INBOX_DIR, "*.json"))` returns, in an order the model leaves open. */
    method Glob() returns (listing: seq<string>)
      ensures Lists(listing, JobFiles(inbox))
    {
      listing := ListDir(JobFiles(inbox));
    }

    /** The first job of what is left of a scan, as one step of `Batch`. */
    method ProcessFirst(rest: seq<string>, secrets: SecretsFile, uploader: UploadCall -> UploadResult, binding: Binding) returns (o: Outcome)
      requires rest != []
      modifies this
      ensures o == Crashed ==> Batch(old(State()), rest, secrets, uploader, binding) == (State(), [o])
      ensures o != Crashed ==>
                Batch(old(State()), rest, secrets, uploader, binding) ==
                (Batch(State(), rest[1..], secrets, uploader, binding).0, [o] + Batch(State(), rest[1..], secrets, uploader, binding).1)
    {
      BatchStep(State(), rest, secrets, uploader, binding);
      o := ProcessJob(rest[0], secrets, uploader, binding);
    }

    /**
     * One turn of worker.py:131-132: the job at `i` is processed, and the scan so
     * far plus what the rest of the listing will do is still the whole scan.
     */
    method ProcessNext(ghost start: Dirs, listing: seq<string>, i: nat, done: seq<Outcome>, secrets: SecretsFile,
                       uploader: UploadCall -> UploadResult, binding: Binding) returns (o: Outcome, outcomes: seq<Outcome>)
      requires i < |listing|
      requires Batch(start, listing, secrets, uploader, binding) ==
        (Batch(State(), listing[i..], secrets, uploader, binding).0, done + Batch(State(), listing[i..], secrets, uploader, binding).1)
      modifies this
      ensures outcomes == done + [o]
      ensures o == Crashed ==> Batch(start, listing, secrets, uploader, binding) == (State(), outcomes)
      ensures o != Crashed ==>
                Batch(start, listing, secrets, uploader, binding) ==
                (Batch(State(), listing[i + 1..], secrets, uploader, binding).0, outcomes + Batch(State(), listing[i + 1..], secrets, uploader, binding).1)
    {
      assert listing[i..][1..] == listing[i + 1..];
      o := ProcessFirst(listing[i..], secrets, uploader, binding);
      outcomes := done + [o];
      if o != Crashed {
        ghost var rest := Batch(State(), listing[i + 1..], secrets, uploader, binding);
        assert outcomes + rest.1 == done + ([o] + rest.1);
      }
    }

    /** worker.py:131-132: each listed job in turn; an escaping exception ends the loop. */
    method ProcessListing(listing: seq<string>, secrets: SecretsFile, uploader: UploadCall -> UploadResult, binding: Binding) returns (outcomes: seq<Outcome>)
      modifies this
      ensures (State(), outcomes) == Batch(old(State()), listing, secrets, uploader, binding)
    {
      outcomes := [];
      var i := 0;
      assert listing[0..] == listing;
      assert outcomes + Batch(State(), listing, secrets, uploader, binding).1 == Batch(State(), listing, secrets, uploader, binding).1;
      while i < |listing|
        invariant 0 <= i <= |listing|
        invariant Batch(old(State()), listing, secrets, uploader, binding) ==
          (Batch(State(), listing[i..], secrets, uploader, binding).0, outcomes + Batch(State(), listing[i..], secrets, uploader, binding).1)
      {
        var o;
        o, outcomes := ProcessNext(old(State()), listing, i, outcomes, secrets, uploader, binding);
        if o == Crashed {
          return;
        }
        i := i + 1;
      }
      assert listing[i..] == [];
      assert outcomes + [] == outcomes;
    }

    /** One pass of the main loop (worker.py:128-134): sleep on an empty inbox, else process every job found. */
    method Poll(secrets: SecretsFile, uploader: UploadCall -> UploadResult, binding: Binding) returns (slept: bool, outcomes: seq<Outcome>, listing: seq<string>)
      modifies this
      ensures Lists(listing, JobFiles(old(inbox)))
      ensures slept <==> JobFiles(old(inbox)) == {}
      ensures (State(), outcomes) == Batch(old(State()), listing, secrets, uploader, binding)
    {
      listing := Glob();
      slept := listing == [];
      if slept {
        assert forall n :: n !in JobFiles(inbox);
        outcomes := [];
      } else {
        assert listing[0] in JobFiles(inbox);
        outcomes := ProcessListing(listing, secrets, uploader, binding);
      }
    }

    /** One more pass of the main loop after passes that did not crash, recorded in the trace. */
    method RunPass(ghost start: Dirs, ghost trace: seq<Dirs>, ghost listings: seq<seq<string>>, n: nat, last: seq<Outcome>,
                   secretsAt: nat -> SecretsFile, uploader: UploadCall -> UploadResult, binding: Binding)
      returns (outcomes: seq<Outcome>, ghost trace': seq<Dirs>, ghost listings': seq<seq<string>>)
      requires RunSoFar(start, trace, listings, n, last, secretsAt, uploader, binding) && trace[n] == State()
      requires Crashed !in last
      modifies this
      ensures RunSoFar(start, trace', listings', n + 1, outcomes, secretsAt, uploader, binding) && trace'[n + 1] == State()
      ensures Shrunk(old(inbox), inbox)
      ensures Crashed !in outcomes ==> old(processed).Keys <= processed.Keys
    {
      var slept, listing;
      slept, outcomes, listing := Poll(secretsAt(n), uploader, binding);
      BatchOnlyDrainsInbox(old(State()), listing, secretsAt(n), uploader, binding);
      RanOneMorePass(start, trace, listings, secretsAt, uploader, binding, listing, State());
      trace', listings' := trace + [State()], listings + [listing];
      assert trace'[n] == trace[n] && listings'[n] == listing;
    }

    /**
     * The main loop (worker.py:126-137) for at most `rounds` passes. Only
     * KeyboardInterrupt is caught, so the first pass whose job crashes ends the
     * worker: `passes` is the number of passes run and `last` the outcomes of the
     * last one. `trace` holds the directories before each pass and after the last,
     * and `listings` what each pass's glob returned (`RanPasses`); every pass runs
     * unless one crashes.
     */
    method Run(rounds: nat, secretsAt: nat -> SecretsFile, uploader: UploadCall -> UploadResult, binding: Binding)
      returns (crashed: bool, passes: nat, last: seq<Outcome>, ghost trace: seq<Dirs>, ghost listings: seq<seq<string>>)
      modifies this
      ensures passes <= rounds
      ensures RunSoFar(old(State()), trace, listings, passes, last, secretsAt, uploader, binding) && trace[passes] == State()
      ensures crashed <==> Crashed in last
      ensures crashed ==> passes > 0
      ensures !crashed ==> passes == rounds
      ensures Shrunk(old(inbox), inbox)
      ensures !crashed ==> old(processed).Keys <= processed.Keys
    {
      crashed, passes, last := false, 0, [];
      trace, listings := [State()], [];
      while passes < rounds && !crashed
        invariant passes <= rounds
        invariant RunSoFar(old(State()), trace, listings, passes, last, secretsAt, uploader, binding) && trace[passes] == State()
        invariant crashed <==> Crashed in last
        invariant crashed ==> passes > 0
        invariant Shrunk(old(inbox), inbox)
        invariant !crashed ==> old(processed).Keys <= processed.Keys
      {
        ghost var before := State();
        var outcomes;
        outcomes, trace, listings := RunPass(old(State()), trace, listings, passes, last, secretsAt, uploader, binding);
        ShrunkTransitive(old(inbox), before.inbox, inbox);
        last := outcomes;
        crashed := Crashed in outcomes;
        passes := passes + 1;
      }
    }
  }
}
