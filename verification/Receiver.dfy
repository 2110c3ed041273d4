/** How a receiver finds a speaker's targets: a one-entry cache over the installed
    dispatch table, and one decoder per speaker. */
module Receiver {
  type Id = nat
  type Decoder = nat

  datatype Option<T> = None | Some(value: T)

  /** An installed dispatch; an install swaps in a new object and never changes
      an old one. */
  class FanoutDispatch {
    const sourceTargets: map<Id, seq<Id>>

    constructor (sourceTargets: map<Id, seq<Id>>)
      ensures this.sourceTargets == sourceTargets
    {
      this.sourceTargets := sourceTargets;
    }

    function InstallTargetsForUser(user: Id): seq<Id> {
      if user in sourceTargets then sourceTargets[user] else []
    }
  }

  class VoiceReceiver {
    var cachedState: FanoutDispatch?
    var cachedUser: Id
    var cachedTargets: seq<Id>
    var decoders: map<Id, Decoder>
    var next: Decoder // the next decoder to be created

    /** The cache tells the truth, and no two speakers share a decoder. */
    ghost predicate Valid()
      reads this
    {
      && (cachedState != null ==> cachedTargets == cachedState.InstallTargetsForUser(cachedUser))
      && (forall u :: u in decoders ==> decoders[u] < next)
      && (forall u, v :: u in decoders && v in decoders && u != v ==> decoders[u] != decoders[v])
    }

    constructor ()
      ensures Valid() && decoders == map[]
    {
      cachedState, cachedUser, cachedTargets := null, 0, [];
      decoders, next := map[], 0;
    }

    /** Whatever was cached, the targets are those of `state`. A decoder is there
        exactly when there is a target to decode for and one can be made; it is
        the speaker's own, the same one until the speaker is cleaned up. */
    method TargetsAndDecoder(state: FanoutDispatch, user: Id, canCreate: bool)
      returns (targets: seq<Id>, dec: Option<Decoder>)
      requires Valid()
      modifies this
      ensures Valid()
      ensures targets == state.InstallTargetsForUser(user)
      ensures dec.Some? <==> targets != [] && (user in old(decoders) || canCreate)
      ensures dec.Some? ==> user in decoders && decoders[user] == dec.value
      ensures forall u :: u in old(decoders) ==> u in decoders && decoders[u] == old(decoders)[u]
      ensures forall u :: u in decoders && u !in old(decoders) ==> u == user
    {
      if cachedState == state && cachedUser == user {
        targets := cachedTargets;
      } else {
        targets := state.InstallTargetsForUser(user);
        cachedState := state;
        cachedUser := user;
        cachedTargets := targets;
      }
      if |targets| == 0 {
        return targets, None;
      }
      if user !in decoders {
        if !canCreate {
          return targets, None;
        }
        decoders := decoders[user := next];
        next := next + 1;
      }
      dec := Some(decoders[user]);
    }

    /** Runs on another goroutine between two packets. A returning speaker gets a
        decoder nobody has used. */
    method CleanupUser(user: Id)
      requires Valid()
      modifies this
      ensures Valid() && decoders == old(decoders) - {user} && next == old(next)
      ensures old(cachedUser) == user ==> cachedState == null
    {
      if cachedUser == user {
        cachedState := null;
        cachedUser := 0;
        cachedTargets := [];
      }
      decoders := decoders - {user};
    }
  }
}
