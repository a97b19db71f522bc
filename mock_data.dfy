/** The sample campaign list the portal starts from: ten open invites, six
    running campaigns and four finished ones, two of which carry an update
    request. `now` is the time the list is built (`Date.now()` when the
    module loads). */
module MockData {
  import opened Basics
  import opened Decimal
  import opened Campaigns

  /** `makeId(n)`: the campaign id `CID-<1000 + n>`. */
  function MakeId(n: int): string {
    "CID-" + IntToString(1000 + n)
  }

  /** Different numbers give different ids. */
  lemma MakeIdInjective(m: int, n: int)
    ensures MakeId(m) == MakeId(n) <==> m == n
  {
    if MakeId(m) == MakeId(n) {
      assert MakeId(m)[4..] == IntToString(1000 + m);
      assert MakeId(n)[4..] == IntToString(1000 + n);
      IntToStringInjective(1000 + m, 1000 + n);
    }
  }

  /** The descriptive part of a sample campaign. */
  datatype Base = Base(
    name: string,
    poc: string,
    brief: string,
    deliverables: string,
    amount: string,
    offering: string,
    paymentStatus: Option<PaymentStatus>)

  const BaseAvailable: seq<Base> := [
    Base("Autumn Fashion Drop", "Priya Sharma", "Promote autumn capsule: 2 posts + 1 short. Use #AutumnDrop",
      "2 static posts + 1 short", "\U{20B9}25,000", "Product kit + fee", None),
    Base("Eco Gadget Review", "Aman Verma", "Unboxing & 3-min review focused on sustainability.",
      "1 unboxing + 1 review", "\U{20B9}18,000", "Product sample", None),
    Base("Winter Skincare Invite", "Campaign Team", "Share routine + link. Tag brand handles.",
      "1 carousel + 1 story", "\U{20B9}12,000", "Paid collaboration", None),
    Base("Home Decor Series", "Ria Kapoor", "Showcase three looks.",
      "3 posts", "\U{20B9}20,000", "Product kit", None),
    Base("Travel Essentials", "Neha Singh", "Travel essentials guide.",
      "1 vlog + 1 post", "\U{20B9}22,000", "Fee", None)
  ]

  const BaseOngoing: seq<Base> := [
    Base("Smart Home Launch", "Sonal Gupta", "Smart home device launch deliverables.",
      "2 posts + 1 demo", "\U{20B9}35,000", "Device + fee", Some(UnderProcess)),
    Base("Fitness App Collab", "Vikram Singh", "In-app demo + 1 reel",
      "1 reel", "\U{20B9}22,000", "Fee", Some(AwaitingApproval)),
    Base("Green Energy Campaign", "Anita Joshi", "Series about renewable energy.",
      "2 posts", "\U{20B9}15,000", "Fee", Some(Initiated))
  ]

  const BaseCompleted: seq<Base> := [
    Base("Smartwatch Review", "Rahul Jain", "Review of new smartwatch; posted and live.",
      "1 long video", "\U{20B9}30,000", "Device + fee", Some(Paid)),
    Base("Kitchen Essentials", "Nisha Patel", "Product roundup posted and live.",
      "3 posts", "\U{20B9}18,000", "Fee", Some(Paid))
  ]

  /** The stages the running samples cycle through. */
  const OngoingStages: seq<Stage> := [Accepted, ContentSent, Approval]

  const MsPerHour: int := 1000 * 60 * 60

  /** The record the first loop pushes for its `i`-th pass. */
  function Invite(i: nat, now: int): Campaign {
    var b := BaseAvailable[i % |BaseAvailable|];
    Campaign(MakeId(i + 1), b.name + " #" + IntToString(i + 1), b.poc,
      now - i * MsPerHour * (i % 24), b.brief, b.deliverables, b.amount, b.offering,
      None, None, None, None, i < 3)
  }

  /** The record the second loop pushes for its `i`-th pass. */
  function Run(i: nat, now: int): Campaign {
    var b := BaseOngoing[i % |BaseOngoing|];
    Campaign(MakeId(100 + i), b.name + " - Run " + IntToString(i + 1), b.poc,
      now - (i + 2) * MsPerHour * 24, b.brief, b.deliverables, b.amount, b.offering,
      Some(OngoingStages[i % 3]), b.paymentStatus, None, None, false)
  }

  /** The record the third loop pushes for its `i`-th pass. */
  function Finished(i: nat, now: int): Campaign {
    var b := BaseCompleted[i % |BaseCompleted|];
    Campaign(MakeId(200 + i), b.name + " (" + IntToString(i + 1) + ")", b.poc,
      now - (i + 10) * MsPerHour * 24, b.brief, b.deliverables, b.amount, b.offering,
      Some(PostApproval), Some(Paid), None, None, false)
  }

  /** The request given to the campaign at position 12. */
  function LogoRequest(now: int): UpdateRequest {
    UpdateRequest("UR-101", "creator", "Please update logo placement.", now - MsPerHour * 24)
  }

  /** The request given to the campaign at position 3. */
  function ThumbnailRequest(now: int): UpdateRequest {
    UpdateRequest("UR-102", "creator", "Need higher res asset for thumbnail.", now - MsPerHour * 6)
  }

  /** The sample at position `k` of the finished list. */
  function MockAt(k: nat, now: int): Campaign
    requires k < 20
  {
    var c :=
      if k < 10 then Invite(k, now)
      else if k < 16 then Run(k - 10, now)
      else Finished(k - 16, now);
    if k == 12 then c.(updateRequests := Some([LogoRequest(now)]))
    else if k == 3 then c.(updateRequests := Some([ThumbnailRequest(now)]))
    else c
  }

  /** The whole sample list. */
  function MockCampaigns(now: int): seq<Campaign> {
    seq(20, (k: int) requires 0 <= k < 20 => MockAt(k, now))
  }

  /** `makeMockCampaigns()`: three loops push the invites, the running and
      the finished samples, then two of them get an update request. */
  method MakeMockCampaigns(now: int) returns (campaigns: seq<Campaign>)
    ensures campaigns == MockCampaigns(now)
  {
    campaigns := [];
    for i := 0 to 10
      invariant |campaigns| == i
      invariant forall k :: 0 <= k < i ==> campaigns[k] == Invite(k, now)
    {
      campaigns := campaigns + [Invite(i, now)];
    }
    ghost var invites := campaigns;
    for i := 0 to 6
      invariant |campaigns| == 10 + i && campaigns[..10] == invites
      invariant forall k :: 0 <= k < i ==> campaigns[10 + k] == Run(k, now)
    {
      campaigns := campaigns + [Run(i, now)];
    }
    ghost var started := campaigns;
    for i := 0 to 4
      invariant |campaigns| == 16 + i && campaigns[..16] == started
      invariant forall k :: 0 <= k < i ==> campaigns[16 + k] == Finished(k, now)
    {
      campaigns := campaigns + [Finished(i, now)];
    }
    ghost var pushed := campaigns;
    if 12 < |campaigns| {
      campaigns := campaigns[12 := campaigns[12].(updateRequests := Some([LogoRequest(now)]))];
    }
    if 3 < |campaigns| {
      campaigns := campaigns[3 := campaigns[3].(updateRequests := Some([ThumbnailRequest(now)]))];
    }
    forall k | 0 <= k < 20
      ensures campaigns[k] == MockAt(k, now)
    {
      if k < 10 {
        assert pushed[k] == started[k] == invites[k];
      } else if k < 16 {
        assert pushed[k] == started[10 + (k - 10)];
      } else {
        assert pushed[k] == pushed[16 + (k - 16)];
      }
    }
  }

  /** The number `makeId` is given for the sample at position `k`. */
  function IdNumber(k: nat): nat {
    if k < 10 then k + 1 else if k < 16 then 100 + (k - 10) else 200 + (k - 16)
  }

  /** The shape of the sample list: the first ten are open invites with ids
      CID-1001 to CID-1010, only the first three marked new; the next six
      are running, with ids CID-1100 to CID-1105 and stages cycling through
      Accepted, Content Sent, Approval; the last four are finished and paid,
      with ids CID-1200 to CID-1203; only positions 3 and 12 carry a
      request, one each. */
  lemma MockShape(now: int)
    ensures var ms := MockCampaigns(now);
      && |ms| == 20
      && (forall k :: 0 <= k < 20 ==> ms[k].id == MakeId(IdNumber(k)) && ms[k].declined.None?)
      && (forall k :: 0 <= k < 10 ==> ms[k].stage.None? && (ms[k].isNew <==> k < 3))
      && (forall k :: 10 <= k < 16 ==> ms[k].stage == Some(OngoingStages[(k - 10) % 3]) && !ms[k].isNew)
      && (forall k :: 16 <= k < 20 ==>
            ms[k].stage == Some(PostApproval) && ms[k].paymentStatus == Some(Paid) && !ms[k].isNew)
      && (forall k :: 0 <= k < 20 ==> (HasUpdateRequests(ms[k]) <==> k == 3 || k == 12))
      && |RequestsOf(ms[3])| == 1 && |RequestsOf(ms[12])| == 1
  {
  }

  /** No two samples share an id, and none shows both as ongoing and as
      completed: the list starts in the state the guarded actions keep. */
  lemma MockIdsDistinct(now: int)
    ensures IdsDistinct(MockCampaigns(now)) && StripsApart(MockCampaigns(now))
  {
    var ms := MockCampaigns(now);
    MockShape(now);
    forall j, k | 0 <= j < k < |ms|
      ensures ms[j].id != ms[k].id
    {
      MakeIdInjective(IdNumber(j), IdNumber(k));
    }
  }

  /** The invites make up the available strip. */
  lemma MockAvailableStrip(now: int)
    ensures var ms := MockCampaigns(now); AvailableStrip(ms) == ms[..10]
  {
    MockShape(now);
    FilterRange(MockCampaigns(now), IsAvailable, 0, 10);
  }

  /** The running samples make up the ongoing strip. */
  lemma MockOngoingStrip(now: int)
    ensures var ms := MockCampaigns(now); OngoingStrip(ms) == ms[10..16]
  {
    MockShape(now);
    FilterRange(MockCampaigns(now), IsOngoing, 10, 16);
  }

  /** The finished samples make up the completed strip. */
  lemma MockCompletedStrip(now: int)
    ensures var ms := MockCampaigns(now); CompletedStrip(ms) == ms[16..]
  {
    MockShape(now);
    FilterRange(MockCampaigns(now), IsCompletedOrDeclined, 16, 20);
  }

  /** Positions 3 and 12 make up the update-request strip. */
  lemma MockUpdateRequestStrip(now: int)
    ensures var ms := MockCampaigns(now); UpdateRequestStrip(ms) == [ms[3], ms[12]]
  {
    var ms := MockCampaigns(now);
    MockShape(now);
    FilterPair(ms, HasUpdateRequests, 3, 12);
  }
}
