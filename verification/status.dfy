/** The status of a Konfiguration, persisted by several patches per run. */
module StatusProtocol {
  import opened Json
  import opened Snapshots
  import opened Cluster

  /** What a run reads of the Konfiguration's spec and metadata.
      `healthChecks`: the list of them is not empty. */
  datatype Spec = Spec(
    generation: int, deleting: bool, suspend: bool, prune: bool, validate: bool, force: bool, healthChecks: bool)

  function WithHealthiness(s: Status, spec: Spec, c: Condition): Status {
    s.(healthy := if spec.healthChecks then Some(c) else None)
  }

  function WithReadiness(s: Status, spec: Spec, c: Condition, revision: string): Status {
    s.(ready := Some(c), observedGeneration := spec.generation,
       lastAttemptedRevision := if revision != "" then revision else s.lastAttemptedRevision)
  }

  function Progressing(s: Status): Status {
    s.(ready := Some(IsUnknown))
  }

  /** The first of the two statuses that end a run which got through pruning;
      `up` says whether the health checks passed. */
  function HalfSettled(s: Status, spec: Spec, up: bool, snapshot: Snapshot, revision: string): Status {
    if up then WithHealthiness(s.(snapshot := Some(snapshot), lastAppliedRevision := revision), spec, IsTrue)
    else WithHealthiness(s.(snapshot := Some(snapshot), lastAttemptedRevision := revision), spec, IsFalse)
  }

  function Settled(s: Status, spec: Spec, up: bool, snapshot: Snapshot, revision: string): Status {
    WithReadiness(HalfSettled(s, spec, up, snapshot, revision), spec, if up then IsTrue else IsFalse, revision)
  }

  /** One status patch. */
  function Patch(s: Status, ack: Ack): seq<Write> {
    IfLanded(ack, [Save(s)])
  }

  /** The second patch is sent when the first succeeded. */
  function TwoPatches(half: Status, whole: Status, first: Ack, second: Ack): seq<Write> {
    Patch(half, first) + (if first.Done? then Patch(whole, second) else [])
  }

  /** A Konfiguration as one run holds it: the status in memory runs ahead of
      the persisted one when a patch fails. */
  class Konfiguration {
    const api: Api
    const spec: Spec
    var status: Status

    constructor Get(api: Api, spec: Spec)
      ensures this.api == api && this.spec == spec && status == api.world.status
    {
      this.api, this.spec, status := api, spec, api.world.status;
    }

    method PatchStatus(ack: Ack) returns (ok: bool)
      modifies api
      ensures ok == ack.Done?
      ensures api.log == old(api.log) + Patch(status, ack)
      ensures api.world == Replay(old(api.world), Patch(status, ack))
    {
      if Landed(ack) {
        api.Carry(Save(status));
      }
      return ack.Done?;
    }

    method SetProgressing(ack: Ack) returns (ok: bool)
      modifies this, api
      ensures status == Progressing(old(status)) && ok == ack.Done?
      ensures api.log == old(api.log) + Patch(status, ack)
      ensures api.world == Replay(old(api.world), Patch(status, ack))
    {
      status := status.(ready := Some(IsUnknown));
      ok := PatchStatus(ack);
    }

    method SetHealthiness(c: Condition, ack: Ack) returns (ok: bool)
      modifies this, api
      ensures status == WithHealthiness(old(status), spec, c) && ok == ack.Done?
      ensures api.log == old(api.log) + Patch(status, ack)
      ensures api.world == Replay(old(api.world), Patch(status, ack))
    {
      if spec.healthChecks {
        status := status.(healthy := Some(c));
      } else {
        status := status.(healthy := None);
      }
      ok := PatchStatus(ack);
    }

    method SetReadiness(c: Condition, revision: string, ack: Ack) returns (ok: bool)
      modifies this, api
      ensures status == WithReadiness(old(status), spec, c, revision) && ok == ack.Done?
      ensures api.log == old(api.log) + Patch(status, ack)
      ensures api.world == Replay(old(api.world), Patch(status, ack))
    {
      status := status.(ready := Some(c));
      status := status.(observedGeneration := spec.generation);
      if revision != "" {
        status := status.(lastAttemptedRevision := revision);
      }
      ok := PatchStatus(ack);
    }

    method SetNotReady(revision: string, ack: Ack) returns (ok: bool)
      modifies this, api
      ensures status == WithReadiness(old(status), spec, IsFalse, revision) && ok == ack.Done?
      ensures api.log == old(api.log) + Patch(status, ack)
      ensures api.world == Replay(old(api.world), Patch(status, ack))
    {
      ok := SetReadiness(IsFalse, revision, ack);
    }

    method SetNotReadySnapshot(snapshot: Snapshot, revision: string, first: Ack, second: Ack) returns (ok: bool)
      modifies this, api
      ensures ok == (first.Done? && second.Done?)
      ensures var writes := TwoPatches(HalfSettled(old(status), spec, false, snapshot, revision),
                                       Settled(old(status), spec, false, snapshot, revision), first, second);
              api.log == old(api.log) + writes && api.world == Replay(old(api.world), writes)
    {
      status := status.(snapshot := Some(snapshot));
      status := status.(lastAttemptedRevision := revision);
      ok := SetHealthiness(IsFalse, first);
      ghost var half := Patch(status, first);
      if !ok {
        return;
      }
      ok := SetReadiness(IsFalse, revision, second);
      ReplayConcat(old(api.world), half, Patch(status, second));
    }

    method SetReady(snapshot: Snapshot, revision: string, first: Ack, second: Ack) returns (ok: bool)
      modifies this, api
      ensures ok == (first.Done? && second.Done?)
      ensures var writes := TwoPatches(HalfSettled(old(status), spec, true, snapshot, revision),
                                       Settled(old(status), spec, true, snapshot, revision), first, second);
              api.log == old(api.log) + writes && api.world == Replay(old(api.world), writes)
    {
      status := status.(snapshot := Some(snapshot));
      status := status.(lastAppliedRevision := revision);
      ok := SetHealthiness(IsTrue, first);
      ghost var half := Patch(status, first);
      if !ok {
        return;
      }
      ok := SetReadiness(IsTrue, revision, second);
      ReplayConcat(old(api.world), half, Patch(status, second));
    }
  }
}
