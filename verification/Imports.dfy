/** Imports over a whole history: evidence is recorded once, and what a job import links. */
module Imports {
  import opened Wrappers
  import opened Manifests
  import opened Codec
  import opened Worlds
  import opened Commands
  import opened Decisions
  import opened Rereading
  import opened Histories
  import opened Versions

  // ---------------------------------------------------------------- job records

  ghost predicate JobKnown(m: Manifest, sha256: string, id: string) {
    FindJob(m.derivations, sha256).Some? && FindJob(m.derivations, sha256).value.id == id
  }

  /** The command imported this job record, or found it imported. */
  ghost predicate SettlesJob(w: World, file: Option<Bytes>, r: Request, look: Look, id: string) {
    r.JobRequest? &&
    var o := Judge(w, file, r, look).outcome;
    (o.Imported? && o.derivation == id) || o == AlreadyImported(id)
  }

  lemma SettledJobIsKnown(w: World, file: Option<Bytes>, r: Request, look: Look, id: string)
    requires SettlesJob(w, file, r, look, id)
    ensures Load(w, file).Ok?
    ensures match Judge(w, file, r, look)
            case Put(n, _) => JobKnown(n, r.sha256, id)
            case Keep(_) => JobKnown(Load(w, file).value, r.sha256, id)
  {
    hide Load, LinkInput, LinkStems;
    var m := Load(w, file).value;
    if FindJob(m.derivations, r.sha256).None? {
      var n := Judge(w, file, r, look).manifest;
      FindJobStable(m.derivations, n.derivations, r.sha256);
    }
  }

  lemma KnownJobIsKept(w: World, file: Option<Bytes>, m: Manifest, r: Request, look: Look, id: string)
    requires r.JobRequest? && JobKnown(m, r.sha256, id)
    requires Load(w, file) in {Ok(m), Err(Parse)}
    ensures Judge(w, file, r, look) ==
              Keep(if Load(w, file).Ok? then AlreadyImported(id) else Refused(LoadFailed(Parse)))
  {
    hide Load, LinkInput, LinkStems;
  }

  lemma JobStaysKnown(m: Manifest, n: Manifest, sha256: string, id: string)
    requires JobKnown(m, sha256, id) && Evolves(m, n)
    ensures JobKnown(n, sha256, id)
  {
    FindJobStable(m.derivations, n.derivations, sha256);
  }

  lemma SettledJobInVersion(w: World, start: Option<Bytes>, events: seq<Event>, i: nat, id: string)
    requires TextLayer(w) && InOrder(events) && i < |events|
    requires SettlesJob(w, FileBefore(w, start, events, i), events[i].request, events[i].look, id)
    ensures VersionBefore(w, start, events, i + 1).Some?
    ensures JobKnown(VersionBefore(w, start, events, i + 1).value, events[i].request.sha256, id)
  {
    hide Judge, Load, Version, Evolves, Good, RequestOk, JobKnown, SettlesJob;
    VersionNext(w, start, events, i);
    SettledJobIsKnown(w, FileBefore(w, start, events, i), events[i].request, events[i].look, id);
  }

  /** Job evidence is recorded exactly once. After a command that imported a job record, or
      found it imported, no import of a record with the same hash writes again: each names
      that same derivation as already imported, unless a write since has left the manifest
      too deep to parse, and then it is refused as every command is. */
  lemma JobImportedOnce(w: World, start: Option<Bytes>, events: seq<Event>, i: nat, j: nat, id: string)
    requires TextLayer(w) && InOrder(events) && i < j < |events|
    requires SettlesJob(w, FileBefore(w, start, events, i), events[i].request, events[i].look, id)
    requires events[j].request.JobRequest? && events[j].request.sha256 == events[i].request.sha256
    ensures Judge(w, FileBefore(w, start, events, j), events[j].request, events[j].look) ==
              Keep(if ShallowUpTo(w, start, events, j) then AlreadyImported(id) else Refused(LoadFailed(Parse)))
  {
    hide Judge, Load, Version, Evolves, Good, RequestOk, JobKnown, SettlesJob;
    SettledJobInVersion(w, start, events, i, id);
    NoLostUpdate(w, start, events, i + 1, j);
    JobStaysKnown(VersionBefore(w, start, events, i + 1).value, VersionBefore(w, start, events, j).value,
                  events[j].request.sha256, id);
    StaysReadable(w, start, events, j);
    KnownJobIsKept(w, FileBefore(w, start, events, j), VersionBefore(w, start, events, j).value,
                   events[j].request, events[j].look, id);
  }

  // ---------------------------------------------------------------- comparison records

  ghost predicate RecordKnown(m: Manifest, sha256: string, id: string) {
    FindRecord(m.evaluations, sha256).Some? && FindRecord(m.evaluations, sha256).value.id == id
  }

  /** The command imported this comparison record, or found it imported. */
  ghost predicate SettlesRecord(w: World, file: Option<Bytes>, r: Request, look: Look, id: string) {
    r.CompareRequest? &&
    var o := Judge(w, file, r, look).outcome;
    (o.EvaluationImported? && o.evaluation.id == id) || o == EvaluationAlreadyImported(id)
  }

  lemma SettledRecordIsKnown(w: World, file: Option<Bytes>, r: Request, look: Look, id: string)
    requires SettlesRecord(w, file, r, look, id)
    ensures Load(w, file).Ok?
    ensures match Judge(w, file, r, look)
            case Put(n, _) => RecordKnown(n, r.sha256, id)
            case Keep(_) => RecordKnown(Load(w, file).value, r.sha256, id)
  {
    hide Load;
    var m := Load(w, file).value;
    if FindRecord(m.evaluations, r.sha256).None? {
      var n := Judge(w, file, r, look).manifest;
      FindRecordStable(m.evaluations, n.evaluations, r.sha256);
    }
  }

  lemma KnownRecordIsKept(w: World, file: Option<Bytes>, m: Manifest, r: Request, look: Look, id: string)
    requires r.CompareRequest? && RecordKnown(m, r.sha256, id)
    requires Load(w, file) in {Ok(m), Err(Parse)}
    ensures Judge(w, file, r, look) ==
              Keep(if Load(w, file).Ok? then EvaluationAlreadyImported(id) else Refused(LoadFailed(Parse)))
  {
    hide Load;
  }

  lemma RecordStaysKnown(m: Manifest, n: Manifest, sha256: string, id: string)
    requires RecordKnown(m, sha256, id) && Evolves(m, n)
    ensures RecordKnown(n, sha256, id)
  {
    FindRecordStable(m.evaluations, n.evaluations, sha256);
  }

  lemma SettledRecordInVersion(w: World, start: Option<Bytes>, events: seq<Event>, i: nat, id: string)
    requires TextLayer(w) && InOrder(events) && i < |events|
    requires SettlesRecord(w, FileBefore(w, start, events, i), events[i].request, events[i].look, id)
    ensures VersionBefore(w, start, events, i + 1).Some?
    ensures RecordKnown(VersionBefore(w, start, events, i + 1).value, events[i].request.sha256, id)
  {
    hide Judge, Load, Version, Evolves, Good, RequestOk, RecordKnown, SettlesRecord;
    VersionNext(w, start, events, i);
    SettledRecordIsKnown(w, FileBefore(w, start, events, i), events[i].request, events[i].look, id);
  }

  /** Comparison evidence is recorded exactly once, in the same sense. */
  lemma RecordImportedOnce(w: World, start: Option<Bytes>, events: seq<Event>, i: nat, j: nat, id: string)
    requires TextLayer(w) && InOrder(events) && i < j < |events|
    requires SettlesRecord(w, FileBefore(w, start, events, i), events[i].request, events[i].look, id)
    requires events[j].request.CompareRequest? && events[j].request.sha256 == events[i].request.sha256
    ensures Judge(w, FileBefore(w, start, events, j), events[j].request, events[j].look) ==
              Keep(if ShallowUpTo(w, start, events, j) then EvaluationAlreadyImported(id) else Refused(LoadFailed(Parse)))
  {
    hide Judge, Load, Version, Evolves, Good, RequestOk, RecordKnown, SettlesRecord;
    SettledRecordInVersion(w, start, events, i, id);
    NoLostUpdate(w, start, events, i + 1, j);
    RecordStaysKnown(VersionBefore(w, start, events, i + 1).value, VersionBefore(w, start, events, j).value,
                     events[j].request.sha256, id);
    StaysReadable(w, start, events, j);
    KnownRecordIsKept(w, FileBefore(w, start, events, j), VersionBefore(w, start, events, j).value,
                      events[j].request, events[j].look, id);
  }
}
