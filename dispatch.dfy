/**
 * The `notifyOnNewAnnouncement` handler: read the fields, resolve the
 * audience, and send one multicast per group of at most 500 tokens.
 */
module Dispatch {
  import opened Seqs
  import opened Chunking
  import opened Directory
  import opened Announcement
  import opened Audience

  /** The provider's limit on the tokens of one multicast request. */
  const MulticastLimit: nat := 500

  /** One `sendEachForMulticast` request: tokens, notification title and body, and the `duyuruId` data field. */
  datatype Multicast = Multicast(tokens: seq<string>, title: string, body: string, duyuruId: string)

  /** The push provider, reduced to the log of the requests it has received. */
  class Messaging {
    ghost var sent: seq<Multicast>

    constructor ()
      ensures sent == []
    {
      sent := [];
    }

    /** The provider refuses a request without tokens or with more than its limit. */
    method SendEachForMulticast(m: Multicast)
      requires 0 < |m.tokens| <= MulticastLimit
      modifies this
      ensures sent == old(sent) + [m]
    {
      sent := sent + [m];
    }
  }

  /** The token lists of a series of requests. */
  function Batches(ms: seq<Multicast>): seq<seq<string>>
  {
    seq(|ms|, k requires 0 <= k < |ms| => ms[k].tokens)
  }

  /** The request sent for each token batch: one per batch, carrying that batch. */
  function Requests(batches: seq<seq<string>>, title: string, body: string, duyuruId: string): (r: seq<Multicast>)
    ensures Batches(r) == batches
  {
    seq(|batches|, k requires 0 <= k < |batches| => Multicast(batches[k], title, body, duyuruId))
  }

  /** The requests the handler sends for one new announcement, in order. */
  function DispatchPlan(duyuruId: string, data: Option<Document>, users: seq<User>): seq<Multicast>
  {
    var a := Parse(data);
    var tokenList := ResolvedTokens(users, a);
    if |tokenList| == 0 then []
    else Requests(Chunks(tokenList, MulticastLimit), a.baslik, NotificationBody(a.mesaj), duyuruId)
  }

  /** No request at all exactly when the audience has no token. */
  lemma PlanEmptyIffNoAudience(duyuruId: string, data: Option<Document>, users: seq<User>)
    ensures DispatchPlan(duyuruId, data, users) == [] <==> AudienceTokens(users, Parse(data)) == {}
  {
    var a := Parse(data);
    var tokenList := ResolvedTokens(users, a);
    ResolvedTokensSpec(users, a);
    ChunksCount(tokenList, MulticastLimit);
    if |tokenList| > 0 {
      assert tokenList[0] in ToSet(tokenList);
    }
  }

  /**
   * The shape of the sends: ceil(n / 500) requests for n tokens, each with
   * between 1 and 500 tokens, all full but the last, carrying the resolved
   * title, the shortened body and the announcement id.
   */
  lemma PlanShape(duyuruId: string, data: Option<Document>, users: seq<User>)
    ensures var plan := DispatchPlan(duyuruId, data, users);
            var n := |ResolvedTokens(users, Parse(data))|;
            && |plan| == (n + MulticastLimit - 1) / MulticastLimit
            && (forall k :: 0 <= k < |plan| ==> 0 < |plan[k].tokens| <= MulticastLimit)
            && (forall k :: 0 <= k < |plan| - 1 ==> |plan[k].tokens| == MulticastLimit)
            && (forall k :: 0 <= k < |plan| ==>
                  && plan[k].title == Parse(data).baslik
                  && plan[k].body == NotificationBody(Parse(data).mesaj)
                  && plan[k].duyuruId == duyuruId)
  {
    var a := Parse(data);
    var tokenList := ResolvedTokens(users, a);
    ChunksCount(tokenList, MulticastLimit);
    ChunksFull(tokenList, MulticastLimit);
  }

  /**
   * Every token of the audience is sent to exactly once: the batches, laid
   * end to end, are the resolved token list, which has no repetition.
   */
  lemma PlanCoversAudienceOnce(duyuruId: string, data: Option<Document>, users: seq<User>)
    ensures var sentTokens := Flatten(Batches(DispatchPlan(duyuruId, data, users)));
            && sentTokens == ResolvedTokens(users, Parse(data))
            && ToSet(sentTokens) == AudienceTokens(users, Parse(data))
            && NoDup(sentTokens)
  {
    var a := Parse(data);
    var tokenList := ResolvedTokens(users, a);
    ResolvedTokensSpec(users, a);
    var plan := DispatchPlan(duyuruId, data, users);
    if |tokenList| > 0 {
      ChunksFlatten(tokenList, MulticastLimit);
    } else {
      assert Batches(plan) == [];
    }
  }

  /** 1200 audience tokens go out in three requests, of 500, 500 and 200 tokens. */
  lemma TwelveHundredTokens(duyuruId: string, data: Option<Document>, users: seq<User>)
    requires |ResolvedTokens(users, Parse(data))| == 1200
    ensures var plan := DispatchPlan(duyuruId, data, users);
            && |plan| == 3
            && |plan[0].tokens| == 500 && |plan[1].tokens| == 500 && |plan[2].tokens| == 200
  {
    var tokenList := ResolvedTokens(users, Parse(data));
    var r1 := tokenList[500..];
    var r2 := r1[500..];
    assert Chunks(tokenList, MulticastLimit) == [tokenList[..500]] + Chunks(r1, MulticastLimit);
    assert Chunks(r1, MulticastLimit) == [r1[..500]] + Chunks(r2, MulticastLimit);
    assert r2[..|r2|] == r2 && r2[|r2|..] == [];
    assert Chunks(r2, MulticastLimit) == [r2[..|r2|]] + Chunks(r2[|r2|..], MulticastLimit);
  }

  /**
   * 23 target ids and no target class: the audience is resolved by three
   * id queries, of 10, 10 and 3 ids, and by nothing else.
   */
  lemma TwentyThreeIds(users: seq<User>, a: Announcement)
    requires !a.targetAll && |a.targetUids| == 23 && |a.targetClasses| == 0
    ensures var g := Chunks(a.targetUids, InQueryLimit);
            && |g| == 3 && |g[0]| == 10 && |g[1]| == 10 && |g[2]| == 3
            && ResolvedTokens(users, a) == CollectQueries([], users, DocumentId, g)
  {
    var uids := a.targetUids;
    var r1 := uids[10..];
    var r2 := r1[10..];
    assert Chunks(uids, InQueryLimit) == [uids[..10]] + Chunks(r1, InQueryLimit);
    assert Chunks(r1, InQueryLimit) == [r1[..10]] + Chunks(r2, InQueryLimit);
    assert r2[..|r2|] == r2 && r2[|r2|..] == [];
    assert Chunks(r2, InQueryLimit) == [r2[..|r2|]] + Chunks(r2[|r2|..], InQueryLimit);
  }

  /** `for (const b of batches)`: one multicast request per batch, in order. */
  method SendBatches(fcm: Messaging, batches: seq<seq<string>>, title: string, body: string, duyuruId: string)
    requires forall k :: 0 <= k < |batches| ==> 0 < |batches[k]| <= MulticastLimit
    modifies fcm
    ensures fcm.sent == old(fcm.sent) + Requests(batches, title, body, duyuruId)
  {
    for k := 0 to |batches|
      invariant fcm.sent == old(fcm.sent) + Requests(batches[..k], title, body, duyuruId)
    {
      assert Requests(batches[..k + 1], title, body, duyuruId)
          == Requests(batches[..k], title, body, duyuruId) + [Multicast(batches[k], title, body, duyuruId)];
      fcm.SendEachForMulticast(Multicast(batches[k], title, body, duyuruId));
    }
    assert batches[..|batches|] == batches;
  }

  /**
   * The handler for a new `duyurular/{duyuruId}` document: the requests it
   * sends are exactly the dispatch plan, and none when no token is found.
   */
  method NotifyOnNewAnnouncement(duyuruId: string, data: Option<Document>, users: seq<User>, fcm: Messaging)
    modifies fcm
    ensures fcm.sent == old(fcm.sent) + DispatchPlan(duyuruId, data, users)
  {
    var a := Parse(data);
    var baslik, mesaj := a.baslik, a.mesaj;
    var tokenList := ResolveTokens(users, a);
    if |tokenList| == 0 {
      return;
    }
    var batches := Chunk(tokenList, MulticastLimit);
    SendBatches(fcm, batches, baslik, NotificationBody(mesaj), duyuruId);
  }
}
