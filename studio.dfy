/**
 * The submission page (Oppodcast.py): the credentials file as the page reads and
 * writes it, the check that blocks the page until credentials exist, and the form
 * handler that queues a job as an audio file and a job file in `inbox/`.
 */
module Studio {
  import opened Wrappers
  import opened JsonDoc
  import opened Paths
  import opened Worker

  /** What `load_secrets` falls back to. */
  const EmptySecrets: map<string, string> := map["vodio_login" := "", "vodio_password" := ""]

  /**
   * `load_secrets` (Oppodcast.py:17-25): the parsed file, or two empty values when
   * the file is missing or is not valid JSON. A JSON value that is not an object is
   * returned as it is. Only a JSON decoding error is caught: a file that cannot be
   * decoded as text raises out of the page (None).
   */
  function LoadSecrets(f: SecretsFile): (r: Option<JsonText>)
    ensures r.None? <==> f.Undecodable?
    ensures (f.Absent? || (f.Present? && f.text.Malformed?)) ==> r == Some(Object(EmptySecrets))
    ensures f.Present? && !f.text.Malformed? ==> r == Some(f.text)
    ensures r.Some? ==> !r.value.Malformed?
  {
    match f
    case Absent => Some(Object(EmptySecrets))
    case Undecodable => None
    case Present(Malformed) => Some(Object(EmptySecrets))
    case Present(t) => Some(t)
  }

  /**
   * The blocking check (Oppodcast.py:46-49): the main form is shown only when the
   * loaded login and password are both non-empty. A non-object document makes the
   * sidebar's `secrets.get` (Oppodcast.py:37) raise, and so does a file `load_secrets`
   * could not decode, so the form is not shown then either.
   */
  function MainFormReachable(loaded: Option<JsonText>): (r: bool)
    ensures r ==> && loaded.Some? && loaded.value.Object?
                  && "vodio_login" in loaded.value.fields && loaded.value.fields["vodio_login"] != ""
                  && "vodio_password" in loaded.value.fields && loaded.value.fields["vodio_password"] != ""
    ensures loaded == Some(Object(EmptySecrets)) ==> !r
  {
    && loaded.Some? && loaded.value.Object?
    && HasValue(loaded.value.fields, "vodio_login") && HasValue(loaded.value.fields, "vodio_password")
  }

  /** The page and the worker agree on when credentials are configured. */
  lemma PageUnblockedIffWorkerHasCredentials(f: SecretsFile)
    ensures MainFormReachable(LoadSecrets(f)) <==> GetSecrets(f).Some?
  {
  }

  /** `save_secrets` (Oppodcast.py:27-31): the file becomes an object with the two values. */
  function SaveSecrets(login: string, password: string): (f: SecretsFile)
    ensures f.Present? && f.text.Object?
    ensures f.text.fields.Keys == {"vodio_login", "vodio_password"}
    ensures f.text.fields["vodio_login"] == login && f.text.fields["vodio_password"] == password
  {
    Present(Object(map["vodio_login" := login, "vodio_password" := password]))
  }

  /** What the page saves, the worker reads back, when both values are non-empty. */
  lemma SavedCredentialsReachTheWorker(login: string, password: string)
    ensures login != "" && password != "" ==> GetSecrets(SaveSecrets(login, password)) == Some(Credentials(login, password))
    ensures login == "" || password == "" ==> GetSecrets(SaveSecrets(login, password)).None?
    ensures MainFormReachable(LoadSecrets(SaveSecrets(login, password))) <==> login != "" && password != ""
  {
  }

  function AudioName(jobId: string): string { jobId + ".mp3" }

  function JobName(jobId: string): string { jobId + ".json" }

  /** The two files of one job never share a name. */
  lemma JobFilesDistinct(jobId: string)
    ensures AudioName(jobId) != JobName(jobId)
  {
    assert AudioName(jobId)[|jobId| + 1] == 'm';
    assert JobName(jobId)[|jobId| + 1] == 'j';
  }

  /** A queued job file is one the worker's scan picks up, whenever the id is not hidden. */
  lemma QueuedJobIsScanned(jobId: string)
    requires jobId != [] && jobId[0] != '.'
    ensures IsJobFile(JobName(jobId))
  {
    assert JobName(jobId)[|JobName(jobId)| - 5..] == ".json";
    assert JobName(jobId)[..1] == [jobId[0]];
  }

  /** The job record (Oppodcast.py:80-87). */
  function JobRecord(jobId: string, title: string, description: string, createdAt: string): (r: map<string, string>)
    ensures r.Keys == {"id", "title", "description", "mp3_file", "status", "created_at"}
    ensures r["id"] == jobId && r["mp3_file"] == AudioName(jobId) && r["status"] == "pending"
    ensures r["title"] == title && r["description"] == description && r["created_at"] == createdAt
  {
    map["id" := jobId, "title" := title, "description" := description,
        "mp3_file" := AudioName(jobId), "status" := "pending", "created_at" := createdAt]
  }

  /** What the form holds when it is submitted: the uploaded file, if any, and the two texts. */
  datatype Form = Form(upload: Option<seq<bv8>>, title: string, description: string)

  /**
   * The submission handler (Oppodcast.py:68-98). `jobId` stands for the fresh
   * `uuid4` and `createdAt` for the file's creation time.
   */
  method Submit(spool: Spool, form: Form, jobId: string, createdAt: string) returns (r: Result<string, string>)
    modifies spool
    ensures r.Ok? <==> form.upload.Some? && form.title != ""
    ensures r.Err? ==> spool.State() == old(spool.State())
    ensures r.Ok? ==> r.value == jobId
    ensures r.Ok? ==>
      spool.inbox == old(spool.inbox)[AudioName(jobId) := Blob(form.upload.value)]
                                     [JobName(jobId) := Json(Object(JobRecord(jobId, form.title, form.description, createdAt)))]
    ensures spool.processed == old(spool.processed) && spool.failed == old(spool.failed)
  {
    if form.upload.Some? && form.title != "" {
      spool.inbox := spool.inbox[AudioName(jobId) := Blob(form.upload.value)];
      var record := JobRecord(jobId, form.title, form.description, createdAt);
      spool.inbox := spool.inbox[JobName(jobId) := Json(Object(record))];
      r := Ok(jobId);
    } else {
      r := Err("File and Title are required!");
    }
  }

  /** The directories right after a successful submission. */
  function Queued(d: Dirs, jobId: string, audio: seq<bv8>, title: string, description: string, createdAt: string): Dirs {
    d.(inbox := d.inbox[AudioName(jobId) := Blob(audio)]
                       [JobName(jobId) := Json(Object(JobRecord(jobId, title, description, createdAt)))])
  }

  /**
   * End to end: once the page has queued a job and credentials exist, the worker
   * asks the uploader for exactly the submitted title and description and the
   * stored audio; the pair lands in processed/ when the call reaches the uploader
   * and the upload succeeds, and in failed/ otherwise, and leaves inbox/ either way.
   */
  lemma {:induction false} QueuedJobIsRouted(d: Dirs, jobId: string, audio: seq<bv8>, title: string, description: string,
                                             createdAt: string, secrets: SecretsFile, uploader: UploadCall -> UploadResult,
                                             binding: Binding)
    requires GetSecrets(secrets).Some?
    ensures var q := Queued(d, jobId, audio, title, description, createdAt);
      var call := UploadCall(GetSecrets(secrets).value.login, GetSecrets(secrets).value.password,
                             Join(InboxDir, AudioName(jobId)), title, description);
      var (d', o) := Process(q, JobName(jobId), secrets, uploader, binding);
      && (o == Archived <==> binding == Corrected && uploader(call) == Published)
      && d'.inbox == d.inbox - {JobName(jobId), AudioName(jobId)}
      && (o == Archived ==>
            d'.processed[JobName(jobId)] == q.inbox[JobName(jobId)] && d'.processed[AudioName(jobId)] == Blob(audio))
      && (o != Archived ==>
            d'.failed[JobName(jobId)] == q.inbox[JobName(jobId)] && d'.failed[AudioName(jobId)] == Blob(audio))
  {
    var q := Queued(d, jobId, audio, title, description, createdAt);
    JobFilesDistinct(jobId);
    assert Parse(q.inbox[JobName(jobId)]).fields == JobRecord(jobId, title, description, createdAt);
    assert |AudioName(jobId)| >= 4;
    assert Uploadable(q, JobName(jobId), secrets);
    if binding == Corrected {
      CorrectedRoutesBothFiles(q, JobName(jobId), secrets, uploader);
    }
    assert q.inbox - {JobName(jobId), AudioName(jobId)} == d.inbox - {JobName(jobId), AudioName(jobId)};
  }
}
