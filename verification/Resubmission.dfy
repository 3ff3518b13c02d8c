/** What recovery makes of one persisted job record: the job it submits again, and the record that
    the submission writes. */
module Resubmissions {
  import opened Bytes
  import opened AssetIds
  import opened JobQueues
  import opened JobStates
  import opened RowCodec
  import opened Payloads
  import opened Jobs
  import opened JobTables

  /** A job about to be submitted, and the record its submission writes but for the times. */
  datatype Submission = Submission(job: PipelineJob, record: JobRecord)

  function JobOf(floats: FloatText, r: JobRecord): Option<PipelineJob> {
    Rebuild(floats, r.jobId, r.assetId, r.kind, r.payload)
  }

  ghost predicate TextsOk(job: PipelineJob) {
    match job
    case Waveform(_, _, path, _, _) => ValidUtf8(path)
    case Thumbnails(_, _, path, _, _, _) => ValidUtf8(path)
    case VideoProxy(_, _, path, output, profile) => ValidUtf8(path) && ValidUtf8(output) && ValidUtf8(profile.name)
    case AudioProxy(_, _, path, output, profile) => ValidUtf8(path) && ValidUtf8(output) && ValidUtf8(profile.name)
  }

  lemma PayloadIsUtf8(floats: FloatText, job: PipelineJob)
    requires TextsOk(job)
    ensures ValidUtf8(job.Payload(floats)) && ValidUtf8(job.Kind())
  {
    AsciiIsUtf8(job.Kind());
    match job
    case Waveform(_, _, path, chunkSize, sampleRate) =>
      AsciiIsUtf8(Decimal(chunkSize));
      AsciiIsUtf8(Decimal(sampleRate));
      JoinIsUtf8(Decimal(chunkSize), Decimal(sampleRate));
      JoinIsUtf8(path, Join(Decimal(chunkSize), Decimal(sampleRate)));
    case Thumbnails(_, _, path, interval, width, height) =>
      AsciiIsUtf8(Decimal(width));
      AsciiIsUtf8(Decimal(height));
      JoinIsUtf8(Decimal(width), Decimal(height));
      JoinIsUtf8(floats.format(interval), Join(Decimal(width), Decimal(height)));
      JoinIsUtf8(path, Join(floats.format(interval), Join(Decimal(width), Decimal(height))));
    case VideoProxy(_, _, path, output, profile) =>
      JoinIsUtf8(output, profile.name);
      JoinIsUtf8(path, Join(output, profile.name));
    case AudioProxy(_, _, path, output, profile) =>
      JoinIsUtf8(output, profile.name);
      JoinIsUtf8(path, Join(output, profile.name));
  }

  lemma RebuiltTextsOk(floats: FloatText, r: JobRecord)
    requires JobOf(floats, r).Some?
    ensures TextsOk(JobOf(floats, r).value)
  {
    RebuiltFields(floats, r.jobId, r.assetId, r.kind, r.payload);
    FieldIsUtf8(r.payload, 0);
    FieldIsUtf8(r.payload, 1);
    PresetNames();
    TextsOkBy(JobOf(floats, r).value, Field(Split(r.payload), 0), Field(Split(r.payload), 1));
  }

  lemma TextsOkBy(job: PipelineJob, path: seq<byte>, output: seq<byte>)
    requires ValidUtf8(path) && ValidUtf8(output) && job.path == path
    requires job.VideoProxy? || job.AudioProxy? ==> job.output == output && ValidUtf8(job.profile.name)
    ensures TextsOk(job)
  {
  }

  lemma PresetNames()
    ensures ValidUtf8(Proxy1080pLow().name) && ValidUtf8(AudioProxyFlac().name)
  {
    AsciiIsUtf8(Proxy1080pLow().name);
    AsciiIsUtf8(AudioProxyFlac().name);
  }

  lemma FieldIsUtf8(s: seq<byte>, k: nat)
    requires ValidUtf8(s)
    ensures ValidUtf8(Field(Split(s), k))
  {
    if k < |Split(s)| {
      FieldsAreUtf8(s, k);
    }
  }

  /** Pending, nothing done, no error. */
  function FreshRecord(floats: FloatText, job: PipelineJob): JobRecord
    requires TextsOk(job)
  {
    PayloadIsUtf8(floats, job);
    JobRecord(job.id, job.assetId, job.Priority(), Pending, job.Kind(), 0, 0, job.Payload(floats), 0, 0, None)
  }

  /** What recovery makes of a record. */
  function Resubmit(floats: FloatText, r: JobRecord): Option<Submission> {
    var job := JobOf(floats, r);
    if job == None then None
    else
      RebuiltTextsOk(floats, r);
      Some(Submission(job.value, FreshRecord(floats, job.value)))
  }

  type Resubmitter = JobRecord -> Option<Submission>

  function With(floats: FloatText): Resubmitter { (r: JobRecord) => Resubmit(floats, r) }

  /** What the passes below need to know of it. */
  ghost predicate Sound(again: Resubmitter) {
    forall r :: again(r).Some? ==>
      again(r).value.job.id == r.jobId && again(r).value.record.jobId == r.jobId && again(r).value.record.state == Pending
  }

  /** A record is resubmitted as the job that was persisted under its id: nothing done yet, no hint to
      resume from, no error. */
  lemma ResubmittedRecord(floats: FloatText, r: JobRecord)
    requires Resubmit(floats, r).Some?
    ensures var s := Resubmit(floats, r).value;
            && s.job.id == s.record.jobId == r.jobId && s.job.assetId == s.record.assetId == r.assetId
            && s.record.kind == r.kind && s.record.state == Pending && s.record.error == None
            && s.record.progress == 0 && s.record.resumeHint == 0
            && s.record.priority == (if s.job.Waveform? then High else Normal)
            && (s.job.path == Field(Split(r.payload), 0))
  {
    RebuiltFields(floats, r.jobId, r.assetId, r.kind, r.payload);
    RebuiltKind(floats, r.jobId, r.assetId, r.kind, r.payload);
  }

  lemma ResubmitIsSound(floats: FloatText)
    ensures Sound(With(floats))
  {
    forall r | With(floats)(r).Some?
      ensures With(floats)(r).value.job.id == r.jobId && With(floats)(r).value.record.jobId == r.jobId
      ensures With(floats)(r).value.record.state == Pending
    {
      ResubmittedRecord(floats, r);
    }
  }

  /** The record asks to be run again and can be rebuilt. */
  ghost predicate Due(again: Resubmitter, r: JobRecord) {
    (r.state == Pending || r.state == Running) && again(r).Some?
  }

  /** `now` is the record that resubmitting `was` writes. */
  ghost predicate Rewritten(again: Resubmitter, was: JobRecord, now: JobRecord) {
    again(was).Some? && now == again(was).value.record.(createdMs := now.createdMs, updatedMs := now.updatedMs)
  }
}
