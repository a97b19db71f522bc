/** The state of the "Campaigns & Contracts" view and its event handlers.
    The view holds the campaign list, the recency filter, the campaign whose
    brief is open, and the text typed into the decline and update dialogs;
    each handler replaces some of these. */
module ContractsBoard {
  import opened Basics
  import opened Campaigns

  class CampaignsContracts {
    var campaigns: seq<Campaign>
    var filter: string
    var briefOpen: Option<Campaign>
    var reasonText: string
    var updateMsg: string

    /** An open brief shows a campaign taken from the list. */
    ghost predicate Valid()
      reads this`campaigns, this`briefOpen
    {
      briefOpen.Some? ==> briefOpen.value in campaigns
    }

    constructor (cs: seq<Campaign>)
      ensures Valid()
      ensures campaigns == cs && filter == "All" && briefOpen == None
      ensures reasonText == "" && updateMsg == ""
    {
      campaigns := cs;
      filter := "All";
      briefOpen := None;
      reasonText := "";
      updateMsg := "";
    }

    /** "Open Brief" on a card. */
    method OpenBrief(c: Campaign)
      requires Valid() && c in campaigns
      modifies this`briefOpen
      ensures Valid() && briefOpen == Some(c)
    {
      briefOpen := Some(c);
    }

    /** Closing the brief dialog. */
    method CloseBrief()
      modifies this`briefOpen
      ensures Valid() && briefOpen == None
    {
      briefOpen := None;
    }

    /** Choosing a recency filter. */
    method SetFilter(f: string)
      modifies this`filter
      ensures filter == f
      ensures old(Valid()) ==> Valid()
    {
      filter := f;
    }

    /** "Accept", offered only on an open brief of an available campaign:
        the campaign becomes ongoing and the brief closes. */
    method HandleAccept()
      requires Valid() && briefOpen.Some? && IsAvailable(briefOpen.value)
      modifies this`campaigns, this`briefOpen
      ensures Valid() && briefOpen == None
      ensures campaigns == AcceptById(old(campaigns), old(briefOpen).value.id)
      ensures exists k :: 0 <= k < |campaigns| && campaigns[k].id == old(briefOpen).value.id && IsOngoing(campaigns[k])
      ensures old(IdsDistinct(campaigns) && StripsApart(campaigns)) ==> IdsDistinct(campaigns) && StripsApart(campaigns)
    {
      var c := briefOpen.value;
      ghost var k :| 0 <= k < |campaigns| && campaigns[k] == c;
      if IdsDistinct(campaigns) && StripsApart(campaigns) {
        AcceptKeepsStripsApart(campaigns, k);
      }
      campaigns := AcceptById(campaigns, c.id);
      briefOpen := None;
    }

    /** "Decline", offered only on an open brief of an available campaign:
        clears the reason and keeps the brief open for the reason dialog. */
    method HandleDecline()
      requires Valid() && briefOpen.Some? && IsAvailable(briefOpen.value)
      modifies this`reasonText
      ensures Valid() && reasonText == ""
    {
      reasonText := "";
    }

    /** Typing in the reason dialog. */
    method SetReasonText(t: string)
      modifies this`reasonText
      ensures reasonText == t
      ensures old(Valid()) ==> Valid()
    {
      reasonText := t;
    }

    /** "Submit" in the reason dialog, at time `now`: declines the open
        brief's campaign with the typed reason, then closes the brief; with
        no brief open nothing happens to the list. */
    method ConfirmDecline(now: int)
      requires Valid()
      modifies this`campaigns, this`briefOpen
      ensures Valid()
      ensures campaigns == Campaigns.ConfirmDecline(old(campaigns), old(briefOpen), old(reasonText), now)
      ensures old(briefOpen).None? ==> campaigns == old(campaigns) && briefOpen == None
      ensures old(briefOpen).Some? ==> (
        && briefOpen == None
        && exists k :: 0 <= k < |campaigns| && campaigns[k].id == old(briefOpen).value.id
             && IsCompletedOrDeclined(campaigns[k]) && !IsAvailable(campaigns[k]))
      ensures old(IdsDistinct(campaigns) && StripsApart(campaigns) && (briefOpen.Some? ==> IsAvailable(briefOpen.value)))
        ==> IdsDistinct(campaigns) && StripsApart(campaigns)
    {
      if briefOpen.None? {
        return;
      }
      var c := briefOpen.value;
      ghost var k :| 0 <= k < |campaigns| && campaigns[k] == c;
      if IdsDistinct(campaigns) && StripsApart(campaigns) && IsAvailable(c) {
        DeclineKeepsStripsApart(campaigns, k, reasonText, now);
      }
      campaigns := DeclineById(campaigns, c.id, reasonText, now);
      briefOpen := None;
    }

    /** "Update Request", offered only on an open brief of an available
        campaign: clears the message and keeps the brief open for the
        update dialog. */
    method HandleUpdate()
      requires Valid() && briefOpen.Some? && IsAvailable(briefOpen.value)
      modifies this`updateMsg
      ensures Valid() && updateMsg == ""
    {
      updateMsg := "";
    }

    /** Typing in the update dialog. */
    method SetUpdateMsg(t: string)
      modifies this`updateMsg
      ensures updateMsg == t
      ensures old(Valid()) ==> Valid()
    {
      updateMsg := t;
    }

    /** "Send" in the update dialog, at time `now`, with `draw` the random
        whole number below 999 that names the request: adds the request to
        the open brief's campaign, then closes the brief; with no brief open
        nothing happens to the list. */
    method SendUpdate(draw: nat, now: int)
      requires Valid() && draw < 999
      modifies this`campaigns, this`briefOpen
      ensures Valid()
      ensures campaigns == Campaigns.SendUpdate(old(campaigns), old(briefOpen), old(updateMsg), draw, now)
      ensures old(briefOpen).None? ==> campaigns == old(campaigns) && briefOpen == None
      ensures old(briefOpen).Some? ==> (
        && briefOpen == None
        && exists k :: 0 <= k < |campaigns| && campaigns[k].id == old(briefOpen).value.id
             && HasUpdateRequests(campaigns[k]))
      ensures old(IdsDistinct(campaigns) && StripsApart(campaigns)) ==> IdsDistinct(campaigns) && StripsApart(campaigns)
    {
      if briefOpen.None? {
        return;
      }
      var c := briefOpen.value;
      ghost var k :| 0 <= k < |campaigns| && campaigns[k] == c;
      assert AppendRequestById(campaigns, c.id, NewRequest(draw, updateMsg, now))[k] == WithRequest(c, NewRequest(draw, updateMsg, now));
      if IdsDistinct(campaigns) && StripsApart(campaigns) {
        RequestKeepsStripsApart(campaigns, c.id, NewRequest(draw, updateMsg, now));
      }
      campaigns := AppendRequestById(campaigns, c.id, NewRequest(draw, updateMsg, now));
      briefOpen := None;
    }
  }
}
