/** The campaign lifecycle of the Creator Portal's "Campaigns & Contracts"
    view: the campaign record, the fixed order of progress stages, the four
    strips the view sorts campaigns into, and the three actions a creator
    takes on a campaign (accept, decline, request an update). Each action
    rewrites the campaign list the way the view does, by mapping over it and
    replacing every campaign whose id matches. */
module Campaigns {
  import opened Basics
  import opened Decimal

  datatype Stage =
    | Invite
    | Accepted
    | ContentSent
    | Approval
    | ContentPostedConfirmationSent
    | PostApproval

  datatype PaymentStatus = UnderProcess | AwaitingApproval | Paid | Initiated | Completed

  /** Why a campaign was declined, by whom (the source calls the field `by`) and when. */
  datatype Decline = Decline(reason: string, declinedBy: string, time: int)

  datatype UpdateRequest = UpdateRequest(id: string, from: string, message: string, time: int)

  /** A campaign record. An absent `stage` means an invite not yet acted on;
      an absent `updateRequests` list reads as empty; an absent `isNew` reads
      as false. */
  datatype Campaign = Campaign(
    id: string,
    name: string,
    poc: string,
    createdAt: int,
    brief: string,
    deliverables: string,
    amount: string,
    offering: string,
    stage: Option<Stage>,
    paymentStatus: Option<PaymentStatus>,
    updateRequests: Option<seq<UpdateRequest>>,
    declined: Option<Decline>,
    isNew: bool)

  /* ---------------- Stage order ---------------- */

  /** The five steps of the progress bar, in order. `Invite` is not one. */
  const ProgressSteps: seq<Stage> := [Accepted, ContentSent, Approval, ContentPostedConfirmationSent, PostApproval]

  /** `getStageIndex(stage)`: the position of the stage among the progress
      steps, or -1 for no stage and for any value that is not a step. */
  function StageIndex(stage: Option<Stage>): (r: int)
    ensures -1 <= r < |ProgressSteps|
    ensures r == -1 <==> stage.None? || stage.value !in ProgressSteps
    ensures 0 <= r ==> stage == Some(ProgressSteps[r])
  {
    FindIndex(ProgressSteps, (s: Stage) => Some(s) == stage)
  }

  /** The index of each step is its position; an absent stage and `Invite`
      get -1. */
  lemma StageIndexValues()
    ensures StageIndex(None) == -1 && StageIndex(Some(Invite)) == -1
    ensures StageIndex(Some(Accepted)) == 0
    ensures StageIndex(Some(ContentSent)) == 1
    ensures StageIndex(Some(Approval)) == 2
    ensures StageIndex(Some(ContentPostedConfirmationSent)) == 3
    ensures StageIndex(Some(PostApproval)) == 4
  {
  }

  /** Looking a step up by its index finds the step again, so the index
      orders the steps exactly as the progress bar lists them. */
  lemma StageIndexRoundTrip(i: int)
    requires 0 <= i < |ProgressSteps|
    ensures StageIndex(Some(ProgressSteps[i])) == i
  {
    var r := StageIndex(Some(ProgressSteps[i]));
    assert ProgressSteps[r] == ProgressSteps[i];
  }

  /* ---------------- Strips ---------------- */

  /** "Ongoing Campaigns": a stage is set and it is not the last one. */
  predicate IsOngoing(c: Campaign) {
    c.stage.Some? && c.stage.value != PostApproval
  }

  /** "Available & New Opportunities": no stage and not declined. */
  predicate IsAvailable(c: Campaign) {
    c.stage.None? && c.declined.None?
  }

  /** "Update Requests": the request list is present and not empty. */
  predicate HasUpdateRequests(c: Campaign) {
    c.updateRequests.Some? && |c.updateRequests.value| > 0
  }

  /** "Completed & Declined": at the last stage, or declined. */
  predicate IsCompletedOrDeclined(c: Campaign) {
    c.stage == Some(PostApproval) || c.declined.Some?
  }

  function OngoingStrip(cs: seq<Campaign>): seq<Campaign> {
    Filter(cs, IsOngoing)
  }

  function AvailableStrip(cs: seq<Campaign>): seq<Campaign> {
    Filter(cs, IsAvailable)
  }

  function UpdateRequestStrip(cs: seq<Campaign>): seq<Campaign> {
    Filter(cs, HasUpdateRequests)
  }

  function CompletedStrip(cs: seq<Campaign>): seq<Campaign> {
    Filter(cs, IsCompletedOrDeclined)
  }

  /** An available campaign is shown in neither the ongoing nor the
      completed strip. */
  lemma AvailableIsExclusive(c: Campaign)
    requires IsAvailable(c)
    ensures !IsOngoing(c) && !IsCompletedOrDeclined(c)
  {
  }

  /** A campaign that is not declined is in exactly one of the ongoing,
      available and completed strips. */
  lemma NotDeclinedInExactlyOneStrip(c: Campaign)
    requires c.declined.None?
    ensures (if IsOngoing(c) then 1 else 0) + (if IsAvailable(c) then 1 else 0)
      + (if IsCompletedOrDeclined(c) then 1 else 0) == 1
  {
  }

  /** Every campaign is shown in at least one of those three strips, and the
      only overlap is a declined campaign that still has a stage before the
      last one: it shows both as ongoing and as completed. */
  lemma StripOverlap(c: Campaign)
    ensures IsOngoing(c) || IsAvailable(c) || IsCompletedOrDeclined(c)
    ensures IsOngoing(c) && IsCompletedOrDeclined(c)
      <==> c.declined.Some? && c.stage.Some? && c.stage.value != PostApproval
  {
  }

  /** The same holds of the strips as lists: each campaign of the list is in
      one of the three strips, and nothing in the available strip is in the
      other two. */
  lemma StripsCoverList(cs: seq<Campaign>)
    ensures forall i :: 0 <= i < |cs| ==>
      cs[i] in OngoingStrip(cs) || cs[i] in AvailableStrip(cs) || cs[i] in CompletedStrip(cs)
    ensures forall c :: c in AvailableStrip(cs) ==> c !in OngoingStrip(cs) && c !in CompletedStrip(cs)
  {
    forall i | 0 <= i < |cs|
      ensures cs[i] in OngoingStrip(cs) || cs[i] in AvailableStrip(cs) || cs[i] in CompletedStrip(cs)
    {
      if IsOngoing(cs[i]) {
        FilterMembers(cs, IsOngoing);
      } else if IsAvailable(cs[i]) {
        FilterMembers(cs, IsAvailable);
      } else {
        FilterMembers(cs, IsCompletedOrDeclined);
      }
    }
    forall c | c in AvailableStrip(cs)
      ensures c !in OngoingStrip(cs) && c !in CompletedStrip(cs)
    {
      assert IsAvailable(c) by {
        FilterMembers(cs, IsAvailable);
      }
      assert c !in OngoingStrip(cs) by {
        FilterMembers(cs, IsOngoing);
      }
      assert c !in CompletedStrip(cs) by {
        FilterMembers(cs, IsCompletedOrDeclined);
      }
    }
  }

  /* ---------------- Actions ---------------- */

  /** The campaign after `handleAccept` when its id matches. */
  function MarkAccepted(c: Campaign): Campaign {
    c.(stage := Some(Accepted), isNew := false)
  }

  /** `handleAccept(c)` as a function of the list and the id of `c`. */
  function AcceptById(cs: seq<Campaign>, id: string): (r: seq<Campaign>)
    ensures |r| == |cs|
    ensures forall i :: 0 <= i < |cs| ==> r[i].id == cs[i].id
    ensures forall i :: 0 <= i < |cs| && cs[i].id != id ==> r[i] == cs[i]
    ensures forall i :: 0 <= i < |cs| && cs[i].id == id ==>
      && r[i].stage == Some(Accepted) && !r[i].isNew
      && r[i].declined == cs[i].declined && r[i].updateRequests == cs[i].updateRequests
      && r[i] == cs[i].(stage := r[i].stage, isNew := r[i].isNew)
  {
    Map(cs, (c: Campaign) => if c.id == id then MarkAccepted(c) else c)
  }

  /** The campaign after `confirmDecline` when its id matches. */
  function MarkDeclined(c: Campaign, reason: string, now: int): Campaign {
    c.(declined := Some(Decline(reason, "creator", now)), isNew := false)
  }

  /** The list rewrite `confirmDecline` performs for the campaign `id`. */
  function DeclineById(cs: seq<Campaign>, id: string, reason: string, now: int): (r: seq<Campaign>)
    ensures |r| == |cs|
    ensures forall i :: 0 <= i < |cs| ==> r[i].id == cs[i].id
    ensures forall i :: 0 <= i < |cs| && cs[i].id != id ==> r[i] == cs[i]
    ensures forall i :: 0 <= i < |cs| && cs[i].id == id ==>
      && r[i].declined == Some(Decline(reason, "creator", now)) && !r[i].isNew
      && r[i].stage == cs[i].stage && r[i].updateRequests == cs[i].updateRequests
      && r[i] == cs[i].(declined := r[i].declined, isNew := r[i].isNew)
  {
    Map(cs, (c: Campaign) => if c.id == id then MarkDeclined(c, reason, now) else c)
  }

  /** `confirmDecline()`: declines the campaign whose brief is open, with the
      reason typed so far; with no brief open it leaves the list alone. */
  function ConfirmDecline(cs: seq<Campaign>, briefOpen: Option<Campaign>, reason: string, now: int): (r: seq<Campaign>)
    ensures briefOpen.None? ==> r == cs
    ensures briefOpen.Some? ==> r == DeclineById(cs, briefOpen.value.id, reason, now)
  {
    if briefOpen.None? then cs else DeclineById(cs, briefOpen.value.id, reason, now)
  }

  /** The requests of a campaign, an absent list read as empty
      (`x.updateRequests || []`). */
  function RequestsOf(c: Campaign): seq<UpdateRequest> {
    if c.updateRequests.Some? then c.updateRequests.value else []
  }

  /** The request `sendUpdate` builds: id `UR-<draw>` where `draw` is the
      random whole number below 999 the view draws, printed without leading
      zeros, sent by the creator. */
  function NewRequest(draw: nat, message: string, now: int): (req: UpdateRequest)
    requires draw < 999
    ensures req.from == "creator" && req.message == message && req.time == now
    ensures |req.id| >= 4 && req.id[..3] == "UR-" && AllDigits(req.id[3..]) && ParseNat(req.id[3..]) == draw
    ensures req.id[3] == '0' ==> req.id == "UR-0"
  {
    var req := UpdateRequest("UR-" + IntToString(draw), "creator", message, now);
    assert req.id[3..] == IntToString(draw);
    NatRoundTrip(draw);
    req
  }

  /** The campaign after `sendUpdate` when its id matches. */
  function WithRequest(c: Campaign, req: UpdateRequest): (w: Campaign)
    ensures RequestsOf(w) == RequestsOf(c) + [req] && w.updateRequests.Some? && !w.isNew
    ensures w.id == c.id && w.stage == c.stage && w.declined == c.declined
    ensures w == c.(updateRequests := w.updateRequests, isNew := false)
  {
    c.(updateRequests := Some(RequestsOf(c) + [req]), isNew := false)
  }

  /** The list rewrite `sendUpdate` performs for the campaign `id`. */
  function AppendRequestById(cs: seq<Campaign>, id: string, req: UpdateRequest): (r: seq<Campaign>)
    ensures |r| == |cs|
    ensures forall i :: 0 <= i < |cs| ==> r[i].id == cs[i].id
    ensures forall i :: 0 <= i < |cs| && cs[i].id != id ==> r[i] == cs[i]
    ensures forall i :: 0 <= i < |cs| && cs[i].id == id ==> r[i] == WithRequest(cs[i], req)
  {
    Map(cs, (c: Campaign) => if c.id == id then WithRequest(c, req) else c)
  }

  /** `sendUpdate()`: adds a request with the typed message to the campaign
      whose brief is open; with no brief open it leaves the list alone. */
  function SendUpdate(cs: seq<Campaign>, briefOpen: Option<Campaign>, message: string, draw: nat, now: int): (r: seq<Campaign>)
    requires draw < 999
    ensures briefOpen.None? ==> r == cs
    ensures briefOpen.Some? ==> r == AppendRequestById(cs, briefOpen.value.id, NewRequest(draw, message, now))
  {
    if briefOpen.None? then cs
    else AppendRequestById(cs, briefOpen.value.id, NewRequest(draw, message, now))
  }

  /* ---------------- What the actions do to the strips ---------------- */

  /** Accepting moves a campaign that was available into the ongoing strip
      and out of the available and completed strips, and leaves its
      membership of the update-request strip as it was. */
  lemma AcceptMovesToOngoing(cs: seq<Campaign>, id: string, i: int)
    requires 0 <= i < |cs| && cs[i].id == id && IsAvailable(cs[i])
    ensures var r := AcceptById(cs, id);
      && IsOngoing(r[i]) && !IsAvailable(r[i]) && !IsCompletedOrDeclined(r[i])
      && HasUpdateRequests(r[i]) == HasUpdateRequests(cs[i])
  {
  }

  /** Declining takes a campaign out of the available strip and puts it in
      the completed strip, keeping its stage. */
  lemma DeclineMovesToCompleted(cs: seq<Campaign>, id: string, reason: string, now: int, i: int)
    requires 0 <= i < |cs| && cs[i].id == id
    ensures var r := DeclineById(cs, id, reason, now);
      && !IsAvailable(r[i]) && IsCompletedOrDeclined(r[i])
      && IsOngoing(r[i]) == IsOngoing(cs[i])
      && HasUpdateRequests(r[i]) == HasUpdateRequests(cs[i])
  {
  }

  /** Requesting an update puts the campaign in the update-request strip and
      leaves it in whichever of the other strips it was in. */
  lemma RequestJoinsUpdateStrip(cs: seq<Campaign>, id: string, req: UpdateRequest, i: int)
    requires 0 <= i < |cs| && cs[i].id == id
    ensures var r := AppendRequestById(cs, id, req);
      && HasUpdateRequests(r[i])
      && IsOngoing(r[i]) == IsOngoing(cs[i])
      && IsAvailable(r[i]) == IsAvailable(cs[i])
      && IsCompletedOrDeclined(r[i]) == IsCompletedOrDeclined(cs[i])
  {
  }

  /** Keeps the campaigns whose id is not `id`. */
  function OtherThan(id: string): Campaign -> bool {
    (c: Campaign) => c.id != id
  }

  /** After accepting, the available strip is the old one without the
      accepted id, in the same order. */
  lemma {:induction false} AcceptShrinksAvailableStrip(cs: seq<Campaign>, id: string)
    ensures AvailableStrip(AcceptById(cs, id)) == Filter(AvailableStrip(cs), OtherThan(id))
  {
    if cs != [] {
      var r := AcceptById(cs, id);
      assert r == [r[0]] + AcceptById(cs[1..], id);
      AcceptShrinksAvailableStrip(cs[1..], id);
      FilterAppend([r[0]], AcceptById(cs[1..], id), IsAvailable);
      assert cs == [cs[0]] + cs[1..];
      FilterAppend([cs[0]], cs[1..], IsAvailable);
      FilterAppend(Filter([cs[0]], IsAvailable), AvailableStrip(cs[1..]), OtherThan(id));
    }
  }

  /** After declining, the available strip is the old one without the
      declined id, in the same order. */
  lemma {:induction false} DeclineShrinksAvailableStrip(cs: seq<Campaign>, id: string, reason: string, now: int)
    ensures AvailableStrip(DeclineById(cs, id, reason, now)) == Filter(AvailableStrip(cs), OtherThan(id))
  {
    if cs != [] {
      var r := DeclineById(cs, id, reason, now);
      assert r == [r[0]] + DeclineById(cs[1..], id, reason, now);
      DeclineShrinksAvailableStrip(cs[1..], id, reason, now);
      FilterAppend([r[0]], DeclineById(cs[1..], id, reason, now), IsAvailable);
      assert cs == [cs[0]] + cs[1..];
      FilterAppend([cs[0]], cs[1..], IsAvailable);
      FilterAppend(Filter([cs[0]], IsAvailable), AvailableStrip(cs[1..]), OtherThan(id));
    }
  }

  /** Accepting twice is accepting once. */
  lemma AcceptIdempotent(cs: seq<Campaign>, id: string)
    ensures AcceptById(AcceptById(cs, id), id) == AcceptById(cs, id)
  {
  }

  /** Sending requests one after another to the same campaign. */
  function SendAll(cs: seq<Campaign>, id: string, reqs: seq<UpdateRequest>): (r: seq<Campaign>)
    ensures |r| == |cs|
    decreases |reqs|
  {
    if reqs == [] then cs else SendAll(AppendRequestById(cs, id, reqs[0]), id, reqs[1..])
  }

  /** What the requests do to the campaign at position `i`: it is untouched
      when its id is another one; otherwise the requests accumulate after the
      ones already there, in the order they were sent, and its stage and
      decline stay as they were. */
  lemma {:induction false} SendAllAt(cs: seq<Campaign>, id: string, reqs: seq<UpdateRequest>, i: int)
    requires 0 <= i < |cs|
    ensures var r := SendAll(cs, id, reqs);
      && (cs[i].id != id ==> r[i] == cs[i])
      && (cs[i].id == id ==>
            RequestsOf(r[i]) == RequestsOf(cs[i]) + reqs
            && r[i].stage == cs[i].stage && r[i].declined == cs[i].declined)
    decreases |reqs|
  {
    if reqs != [] {
      var next := AppendRequestById(cs, id, reqs[0]);
      SendAllAt(next, id, reqs[1..], i);
      if cs[i].id == id {
        assert next[i] == WithRequest(cs[i], reqs[0]);
        assert [reqs[0]] + reqs[1..] == reqs;
      }
    }
  }

  /** The same for the whole list: sending never touches any other
      campaign. */
  lemma SendAllAppendsInOrder(cs: seq<Campaign>, id: string, reqs: seq<UpdateRequest>)
    ensures var r := SendAll(cs, id, reqs);
      && (forall i :: 0 <= i < |cs| && cs[i].id != id ==> r[i] == cs[i])
      && (forall i :: 0 <= i < |cs| && cs[i].id == id ==>
            RequestsOf(r[i]) == RequestsOf(cs[i]) + reqs
            && r[i].stage == cs[i].stage && r[i].declined == cs[i].declined)
  {
    forall i | 0 <= i < |cs| {
      SendAllAt(cs, id, reqs, i);
    }
  }

  /* ---------------- Keeping the strips apart ---------------- */

  /** No two campaigns of the list share an id. */
  predicate IdsDistinct(cs: seq<Campaign>) {
    forall i, j :: 0 <= i < j < |cs| ==> cs[i].id != cs[j].id
  }

  /** No campaign of the list shows both as ongoing and as completed. */
  predicate StripsApart(cs: seq<Campaign>) {
    forall i :: 0 <= i < |cs| ==> !(IsOngoing(cs[i]) && IsCompletedOrDeclined(cs[i]))
  }

  /** Accepting a campaign offered as available, in a list with distinct
      ids, keeps the ids distinct and the ongoing and completed strips
      apart. */
  lemma AcceptKeepsStripsApart(cs: seq<Campaign>, k: int)
    requires IdsDistinct(cs) && StripsApart(cs)
    requires 0 <= k < |cs| && IsAvailable(cs[k])
    ensures var r := AcceptById(cs, cs[k].id); IdsDistinct(r) && StripsApart(r)
  {
    var r := AcceptById(cs, cs[k].id);
    forall i | 0 <= i < |r|
      ensures !(IsOngoing(r[i]) && IsCompletedOrDeclined(r[i]))
    {
      if i != k {
        assert cs[i].id != cs[k].id by {
          if i < k { assert cs[i].id != cs[k].id; } else { assert cs[k].id != cs[i].id; }
        }
      }
    }
  }

  /** Declining a campaign offered as available, in a list with distinct
      ids, keeps the ids distinct and the ongoing and completed strips
      apart. */
  lemma DeclineKeepsStripsApart(cs: seq<Campaign>, k: int, reason: string, now: int)
    requires IdsDistinct(cs) && StripsApart(cs)
    requires 0 <= k < |cs| && IsAvailable(cs[k])
    ensures var r := DeclineById(cs, cs[k].id, reason, now); IdsDistinct(r) && StripsApart(r)
  {
    var r := DeclineById(cs, cs[k].id, reason, now);
    forall i | 0 <= i < |r|
      ensures !(IsOngoing(r[i]) && IsCompletedOrDeclined(r[i]))
    {
      if i != k {
        assert cs[i].id != cs[k].id by {
          if i < k { assert cs[i].id != cs[k].id; } else { assert cs[k].id != cs[i].id; }
        }
      }
    }
  }

  /** A request changes neither stage nor decline, so it keeps the ids
      distinct and the strips apart whichever campaign it goes to. */
  lemma RequestKeepsStripsApart(cs: seq<Campaign>, id: string, req: UpdateRequest)
    requires IdsDistinct(cs) && StripsApart(cs)
    ensures var r := AppendRequestById(cs, id, req); IdsDistinct(r) && StripsApart(r)
  {
  }

  /** Without the guard the strips can meet: declining a running campaign
      leaves it ongoing and makes it completed as well. */
  lemma DeclineRunningOverlaps(cs: seq<Campaign>, k: int, reason: string, now: int)
    requires 0 <= k < |cs| && IsOngoing(cs[k])
    ensures var r := DeclineById(cs, cs[k].id, reason, now);
      IsOngoing(r[k]) && IsCompletedOrDeclined(r[k]) && !StripsApart(r)
  {
  }
}
