/**
 * The data store as the screens see it. Its persistence, its readiness signalling and its own
 * bookkeeping of trips and members are not part of this model: the store is an object with a
 * readiness flag, the member lists it answers `getMembers` with, and a ghost log of every
 * mutating call the screens make on it.
 */
module DataStore {
  import opened Wrappers

  /** One row of a trip's member list, as the member list renders it (member.js:68). */
  datatype MemberRow = MemberRow(id: int, name: string, ratio: int)

  /** A mutating call on the store, as issued by a screen handler. */
  datatype Call =
    | AddTrip(name: string)
    | UpdateTrip(tripId: int, name: string)
    | DeleteTrip(tripId: int)
    | AddMember(tripId: int, name: string, ratio: int)
    | UpdateMember(tripId: int, memberId: int, name: string, ratio: int)
    | DeleteMember(tripId: int, memberId: int)

  class Store {
    /** What `isReady()` answers. */
    var ready: bool
    /** What `getMembers(tripId)` answers; a trip without an entry answers `undefined`. */
    var members: map<int, seq<MemberRow>>
    /** Every mutating call made on the store, oldest first. */
    ghost var log: seq<Call>

    constructor (ready: bool, members: map<int, seq<MemberRow>>)
      ensures this.ready == ready && this.members == members && log == []
    {
      this.ready := ready;
      this.members := members;
      log := [];
    }

    function MembersOf(tripId: int): Option<seq<MemberRow>>
      reads this
    {
      if tripId in members then Some(members[tripId]) else None
    }

    method IsReady() returns (r: bool)
      ensures r == ready
    {
      r := ready;
    }

    method GetMembers(tripId: int) returns (m: Option<seq<MemberRow>>)
      ensures m == MembersOf(tripId)
    {
      m := if tripId in members then Some(members[tripId]) else None;
    }

    // The mutators below only record the call: what they do to the stored data is the
    // store's own concern, so their contracts leave `members` unspecified.

    method AddTrip(name: string)
      modifies this
      ensures log == old(log) + [Call.AddTrip(name)] && ready == old(ready)
    {
      log := log + [Call.AddTrip(name)];
    }

    method UpdateTrip(tripId: int, name: string)
      modifies this
      ensures log == old(log) + [Call.UpdateTrip(tripId, name)] && ready == old(ready)
    {
      log := log + [Call.UpdateTrip(tripId, name)];
    }

    method DeleteTrip(tripId: int)
      modifies this
      ensures log == old(log) + [Call.DeleteTrip(tripId)] && ready == old(ready)
    {
      log := log + [Call.DeleteTrip(tripId)];
    }

    method AddMember(tripId: int, name: string, ratio: int)
      modifies this
      ensures log == old(log) + [Call.AddMember(tripId, name, ratio)] && ready == old(ready)
    {
      log := log + [Call.AddMember(tripId, name, ratio)];
    }

    method UpdateMember(tripId: int, memberId: int, name: string, ratio: int)
      modifies this
      ensures log == old(log) + [Call.UpdateMember(tripId, memberId, name, ratio)] && ready == old(ready)
    {
      log := log + [Call.UpdateMember(tripId, memberId, name, ratio)];
    }

    method DeleteMember(tripId: int, memberId: int)
      modifies this
      ensures log == old(log) + [Call.DeleteMember(tripId, memberId)] && ready == old(ready)
    {
      log := log + [Call.DeleteMember(tripId, memberId)];
    }
  }
}
