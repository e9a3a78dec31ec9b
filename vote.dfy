/** The vote button (`VoteButton`): a per-location counter with a
    "voted" flag, a busy flag that ignores clicks while an update is in
    flight, and a browser-storage flag `voted_<id>` that stops anonymous
    users from voting twice. A click runs in two steps: the part before the
    `await` (guards, busy flag, the update sent) and the part after it, which
    the outcome of the remote update decides. */
module Vote {
  import opened Wrappers
  import opened Text
  import opened Locations

  /** The remote update `handleVote` sends: `increment(1)` with
      `arrayUnion(voter)`, or `increment(-1)` with `arrayRemove(voter)`. */
  datatype VoteRequest = AddVote(voter: string) | RemoveVote(voter: string)

  /** What the button is for: the location id and the optional user id. */
  datatype VoteContext = VoteContext(locationId: string, userId: Option<string>)

  /** The component state, the browser storage, and the update awaiting
      its outcome (`None` when the click sends none). */
  datatype VoteState = VoteState(
    voteCount: int,
    hasVoted: bool,
    isVoting: bool,
    storage: map<string, string>,
    pending: Option<VoteRequest>)

  /** `voted_${location.id}`. */
  function StorageKey(ctx: VoteContext): string {
    "voted_" + ctx.locationId
  }

  /** `localStorage.getItem(key)` is a non-empty string. */
  predicate VotedBefore(ctx: VoteContext, s: VoteState) {
    StorageKey(ctx) in s.storage && s.storage[StorageKey(ctx)] != ""
  }

  /** The initial state: `votes || 0`, and whether `votedBy` includes
      `userId || ''`. */
  function Initial(location: Location, ctx: VoteContext, storage: map<string, string>): (s: VoteState)
    ensures s.voteCount == location.votes.GetOr(0)
    ensures s.hasVoted <==> location.votedBy.Some? && OrElse(ctx.userId, "") in location.votedBy.value
    ensures !s.isVoting && s.pending.None? && s.storage == storage
  {
    VoteState(
      location.votes.GetOr(0),
      location.votedBy.Some? && OrElse(ctx.userId, "") in location.votedBy.value,
      false, storage, None)
  }

  /** `handleVote` up to the `await`; a click with nothing to await runs
      its `finally` at once. After a click on an idle button it is busy
      exactly when an update is outstanding. */
  function Start(ctx: VoteContext, s: VoteState): (r: VoteState)
    ensures s.isVoting || (VotedBefore(ctx, s) && !Truthy(ctx.userId)) ==> r == s
    ensures !s.isVoting && !(VotedBefore(ctx, s) && !Truthy(ctx.userId)) ==> (r.isVoting <==> r.pending.Some?)
    ensures r.voteCount == s.voteCount && r.hasVoted == s.hasVoted && r.storage == s.storage
  {
    if s.isVoting then s
    else if VotedBefore(ctx, s) && !Truthy(ctx.userId) then s
    else if !s.hasVoted then s.(isVoting := true, pending := Some(AddVote(OrElse(ctx.userId, "anonymous"))))
    else if Truthy(ctx.userId) then s.(isVoting := true, pending := Some(RemoveVote(ctx.userId.value)))
    else s.(isVoting := false, pending := None)
  }

  /** The update a click in state `s` sends, if any. */
  function Sent(ctx: VoteContext, s: VoteState): (r: seq<VoteRequest>)
    ensures |r| <= 1
    ensures r != [] ==> !s.isVoting && Start(ctx, s).pending == Some(r[0])
  {
    var t := Start(ctx, s);
    if !s.isVoting && t.isVoting && t.pending.Some? then [t.pending.value] else []
  }

  /** `handleVote` after the `await`: a successful add or remove updates
      the count, the flag and the storage; a failure changes none of them;
      `finally` clears the busy flag. */
  function Finish(ctx: VoteContext, s: VoteState, succeeded: bool): (r: VoteState)
    ensures !r.isVoting && r.pending.None?
    ensures !succeeded || s.pending.None? ==>
      r.voteCount == s.voteCount && r.hasVoted == s.hasVoted && r.storage == s.storage
  {
    var done := s.(isVoting := false, pending := None);
    if !succeeded then done
    else match s.pending
      case None => done
      case Some(AddVote(_)) =>
        done.(voteCount := s.voteCount + 1, hasVoted := true, storage := s.storage[StorageKey(ctx) := "true"])
      case Some(RemoveVote(_)) =>
        done.(voteCount := s.voteCount - 1, hasVoted := false, storage := s.storage - {StorageKey(ctx)})
  }

  /** What can happen to the button: a click, or the outcome of the
      update a click sent. */
  datatype Event = Click | Settle(succeeded: bool)

  function Step(ctx: VoteContext, s: VoteState, e: Event): VoteState {
    match e
    case Click => Start(ctx, s)
    case Settle(ok) => if s.isVoting then Finish(ctx, s, ok) else s
  }

  function Run(ctx: VoteContext, s: VoteState, events: seq<Event>): VoteState
    decreases |events|
  {
    if events == [] then s else Run(ctx, Step(ctx, s, events[0]), events[1..])
  }

  // ---------------------------------------------------------------------
  // Properties

  /** A click whose update succeeds, with no vote recorded yet: the count
      rises by one, the flag is set, the storage key is written and the
      update adds the user, or 'anonymous'. */
  lemma AddVoteSucceeds(ctx: VoteContext, s: VoteState)
    requires !s.isVoting && !s.hasVoted && (Truthy(ctx.userId) || !VotedBefore(ctx, s))
    ensures Start(ctx, s).pending == Some(AddVote(if Truthy(ctx.userId) then ctx.userId.value else "anonymous"))
    ensures var r := Finish(ctx, Start(ctx, s), true);
      && r.voteCount == s.voteCount + 1 && r.hasVoted && !r.isVoting
      && r.storage == s.storage[StorageKey(ctx) := "true"]
  {
  }

  /** A signed-in user's successful click on a recorded vote takes it back:
      count down by one, flag cleared, storage key removed. */
  lemma RemoveVoteSucceeds(ctx: VoteContext, s: VoteState)
    requires !s.isVoting && s.hasVoted && Truthy(ctx.userId)
    ensures Start(ctx, s).pending == Some(RemoveVote(ctx.userId.value))
    ensures var r := Finish(ctx, Start(ctx, s), true);
      && r.voteCount == s.voteCount - 1 && !r.hasVoted && !r.isVoting
      && r.storage == s.storage - {StorageKey(ctx)}
  {
  }

  /** An anonymous user cannot take a vote back: the click sends nothing,
      never leaves the button busy, and changes no state. */
  lemma AnonymousCannotUnvote(ctx: VoteContext, s: VoteState, succeeded: bool)
    requires !s.isVoting && s.pending.None? && s.hasVoted && !Truthy(ctx.userId)
    ensures Start(ctx, s) == s
    ensures Sent(ctx, s) == []
    ensures Step(ctx, Start(ctx, s), Settle(succeeded)) == s
  {
  }

  /** Any completed click leaves the busy flag cleared; a failed one changes
      neither count, nor flag, nor storage. */
  lemma FailedClickChangesNothing(ctx: VoteContext, s: VoteState)
    requires !s.isVoting
    ensures var r := Step(ctx, Step(ctx, s, Click), Settle(false));
      && r.voteCount == s.voteCount && r.hasVoted == s.hasVoted && r.storage == s.storage
      && !r.isVoting
  {
  }

  /** What every reachable state of an anonymous user's button satisfies,
      relative to the count `base` it started with. */
  predicate AnonymousBound(ctx: VoteContext, base: int, s: VoteState) {
    && s.voteCount - base in {0, 1}
    && (s.voteCount == base + 1 ==> VotedBefore(ctx, s))
    && (s.pending.Some? ==> s.isVoting && s.pending.value.AddVote? && s.voteCount == base)
  }

  lemma AnonymousStep(ctx: VoteContext, base: int, s: VoteState, e: Event)
    requires !Truthy(ctx.userId) && AnonymousBound(ctx, base, s)
    ensures AnonymousBound(ctx, base, Step(ctx, s, e))
  {
    var key := StorageKey(ctx);
    match e
    case Click =>
    case Settle(ok) =>
      if s.isVoting && ok && s.pending.Some? {
        assert Step(ctx, s, e).storage[key] == "true";
      }
  }

  /** Whatever sequence of clicks and outcomes occurs, an anonymous user
      raises the count shown by at most one. */
  lemma {:induction false} AnonymousAtMostOne(ctx: VoteContext, base: int, s: VoteState, events: seq<Event>)
    requires !Truthy(ctx.userId) && AnonymousBound(ctx, base, s)
    ensures AnonymousBound(ctx, base, Run(ctx, s, events))
    ensures Run(ctx, s, events).voteCount <= base + 1
    decreases |events|
  {
    if events != [] {
      AnonymousStep(ctx, base, s, events[0]);
      AnonymousAtMostOne(ctx, base, Step(ctx, s, events[0]), events[1..]);
    }
  }

  /** From a freshly mounted button, an anonymous user's clicks raise the
      count by at most one above `votes || 0`, whatever their outcomes. */
  lemma AnonymousOnePerLocation(location: Location, ctx: VoteContext, storage: map<string, string>,
                                events: seq<Event>)
    requires !Truthy(ctx.userId)
    ensures Run(ctx, Initial(location, ctx, storage), events).voteCount <= location.votes.GetOr(0) + 1
  {
    AnonymousAtMostOne(ctx, location.votes.GetOr(0), Initial(location, ctx, storage), events);
  }

  // ---------------------------------------------------------------------
  // The component

  /** The mounted component: its state hooks, the browser storage it
      shares, and the updates it has sent. */
  class VoteButton {
    const ctx: VoteContext
    var voteCount: int
    var hasVoted: bool
    var isVoting: bool
    var storage: map<string, string>
    var pending: Option<VoteRequest>
    /** Every update sent to the database, in order. */
    var sent: seq<VoteRequest>

    function State(): VoteState
      reads this
    {
      VoteState(voteCount, hasVoted, isVoting, storage, pending)
    }

    constructor(location: Location, userId: Option<string>, browserStorage: map<string, string>)
      ensures ctx == VoteContext(location.id, userId)
      ensures State() == Initial(location, ctx, browserStorage)
      ensures sent == []
    {
      ctx := VoteContext(location.id, userId);
      voteCount := location.votes.GetOr(0);
      hasVoted := location.votedBy.Some? && OrElse(userId, "") in location.votedBy.value;
      isVoting := false;
      storage := browserStorage;
      pending := None;
      sent := [];
    }

    /** The click handler up to `await updateDoc(...)`. */
    method StartVote()
      modifies this
      ensures State() == Start(ctx, old(State()))
      ensures sent == old(sent) + Sent(ctx, old(State()))
    {
      if isVoting {
        return;
      }
      var key := StorageKey(ctx);
      var hasVotedBefore := key in storage && storage[key] != "";
      if hasVotedBefore && !Truthy(ctx.userId) {
        return;
      }
      isVoting := true;
      if !hasVoted {
        var voter := OrElse(ctx.userId, "anonymous");
        pending := Some(AddVote(voter));
        sent := sent + [AddVote(voter)];
      } else if Truthy(ctx.userId) {
        pending := Some(RemoveVote(ctx.userId.value));
        sent := sent + [RemoveVote(ctx.userId.value)];
      } else {
        // nothing is awaited, so `finally` clears the flag at once
        pending := None;
        isVoting := false;
      }
    }

    /** The rest of the handler once the update settles with `succeeded`. */
    method FinishVote(succeeded: bool)
      requires isVoting
      modifies this
      ensures State() == Finish(ctx, old(State()), succeeded)
      ensures sent == old(sent)
    {
      if succeeded && pending.Some? {
        var key := StorageKey(ctx);
        match pending.value
        case AddVote(_) =>
          voteCount := voteCount + 1;
          hasVoted := true;
          storage := storage[key := "true"];
        case RemoveVote(_) =>
          voteCount := voteCount - 1;
          hasVoted := false;
          storage := storage - {key};
      }
      pending := None;
      isVoting := false;
    }
  }
}
