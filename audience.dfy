/**
 * Audience resolution: the handler collects the push tokens of the
 * targeted students into a `Set`, through one full scan or a series of
 * "in" queries issued in groups of ten values.
 */
module Audience {
  import opened Seqs
  import opened Chunking
  import opened Directory
  import opened Announcement

  /** `t` added to an insertion-ordered set of tokens. */
  function Insert(acc: seq<string>, t: string): (r: seq<string>)
    ensures ToSet(r) == ToSet(acc) + {t}
    ensures NoDup(acc) ==> NoDup(r)
    ensures |acc| <= |r| && r[..|acc|] == acc
  {
    if t in acc then acc else acc + [t]
  }

  /**
   * A JavaScript `Set` of strings: `items` lists its elements in insertion
   * order, which is the order `Array.from` returns them in.
   */
  class TokenSet {
    var items: seq<string>

    ghost predicate Valid()
      reads this
    {
      NoDup(items)
    }

    constructor ()
      ensures Valid() && items == []
    {
      items := [];
    }

    /** `tokens.add(t)`. */
    method Add(t: string)
      requires Valid()
      modifies this
      ensures Valid() && items == Insert(old(items), t)
    {
      if t !in items {
        items := items + [t];
      }
    }
  }

  /** The body of the `forEach` callback: add the record's token when it has one. */
  function AddDoc(acc: seq<string>, u: User): seq<string>
  {
    if HasToken(u) then Insert(acc, u.fcmToken.value) else acc
  }

  /** The tokens after the callback has run on every document of `docs`, in order. */
  function Collect(acc: seq<string>, docs: seq<User>): seq<string>
    decreases |docs|
  {
    if docs == [] then acc
    else AddDoc(Collect(acc, docs[..|docs| - 1]), docs[|docs| - 1])
  }

  /** The tokens after one query per value group, each group's results collected in turn. */
  function CollectQueries(acc: seq<string>, users: seq<User>, f: Field, groups: seq<seq<string>>): seq<string>
    requires forall k :: 0 <= k < |groups| ==> 0 < |groups[k]| <= InQueryLimit
    decreases |groups|
  {
    if groups == [] then acc
    else
      Collect(CollectQueries(acc, users, f, groups[..|groups| - 1]),
              WhereIn(users, f, groups[|groups| - 1]))
  }

  /** The handler resolves "all students" when `targetAll` is set or no target is given. */
  predicate TargetsEveryone(a: Announcement)
  {
    a.targetAll || (|a.targetUids| == 0 && |a.targetClasses| == 0)
  }

  /** `Array.from(tokens)` at the end of audience resolution, in the order the handler builds it. */
  function ResolvedTokens(users: seq<User>, a: Announcement): seq<string>
  {
    if TargetsEveryone(a) then Collect([], users)
    else
      var byUid :=
        if |a.targetUids| > 0
        then CollectQueries([], users, DocumentId, Chunks(a.targetUids, InQueryLimit))
        else [];
      if |a.targetClasses| > 0
      then CollectQueries(byUid, users, Sinif, Chunks(a.targetClasses, InQueryLimit))
      else byUid
  }

  // Reference definitions, free of queries and grouping.

  /** The tokens of the records in `docs`. */
  ghost function TokensIn(docs: seq<User>): set<string>
  {
    set u | u in docs && HasToken(u) :: u.fcmToken.value
  }

  /** The tokens of the records of `users` whose field `f` holds one of `vals`. */
  ghost function TokensWhere(users: seq<User>, f: Field, vals: seq<string>): set<string>
  {
    set u | u in users && HasToken(u) && Matches(u, f, vals) :: u.fcmToken.value
  }

  /** Whom an announcement reaches: everyone, or the union of the id-targeted and class-targeted students. */
  ghost function AudienceTokens(users: seq<User>, a: Announcement): set<string>
  {
    if TargetsEveryone(a) then TokensIn(users)
    else TokensWhere(users, DocumentId, a.targetUids) + TokensWhere(users, Sinif, a.targetClasses)
  }

  /** No token in the list is the empty string. */
  predicate NonEmptyTokens(s: seq<string>)
  {
    forall i :: 0 <= i < |s| ==> s[i] != ""
  }

  lemma {:induction false} CollectSpec(acc: seq<string>, docs: seq<User>)
    ensures ToSet(Collect(acc, docs)) == ToSet(acc) + TokensIn(docs)
    ensures NoDup(acc) ==> NoDup(Collect(acc, docs))
    ensures NonEmptyTokens(acc) ==> NonEmptyTokens(Collect(acc, docs))
    ensures |acc| <= |Collect(acc, docs)| && Collect(acc, docs)[..|acc|] == acc
    decreases |docs|
  {
    if docs != [] {
      var init, u := docs[..|docs| - 1], docs[|docs| - 1];
      assert docs == init + [u];
      CollectSpec(acc, init);
      var prev := Collect(acc, init);
      assert TokensIn(docs) == TokensIn(init) + (if HasToken(u) then {u.fcmToken.value} else {});
      if HasToken(u) {
        var r := Insert(prev, u.fcmToken.value);
        assert prev[..|acc|] == acc;
        assert r[..|acc|] == r[..|prev|][..|acc|];
      }
    }
  }

  lemma TokensWhereAppend(users: seq<User>, f: Field, xs: seq<string>, ys: seq<string>)
    ensures TokensWhere(users, f, xs + ys) == TokensWhere(users, f, xs) + TokensWhere(users, f, ys)
  {
  }

  lemma TokensOfQuery(users: seq<User>, f: Field, vals: seq<string>)
    requires 0 < |vals| <= InQueryLimit
    ensures TokensIn(WhereIn(users, f, vals)) == TokensWhere(users, f, vals)
  {
  }

  /** Running one query per group collects the tokens matching any value of any group. */
  lemma {:induction false} CollectQueriesSpec(acc: seq<string>, users: seq<User>, f: Field, groups: seq<seq<string>>)
    requires forall k :: 0 <= k < |groups| ==> 0 < |groups[k]| <= InQueryLimit
    ensures ToSet(CollectQueries(acc, users, f, groups)) == ToSet(acc) + TokensWhere(users, f, Flatten(groups))
    ensures NoDup(acc) ==> NoDup(CollectQueries(acc, users, f, groups))
    ensures NonEmptyTokens(acc) ==> NonEmptyTokens(CollectQueries(acc, users, f, groups))
    decreases |groups|
  {
    if groups == [] {
      assert TokensWhere(users, f, []) == {};
    } else {
      var init, last := groups[..|groups| - 1], groups[|groups| - 1];
      assert groups == init + [last];
      CollectQueriesSpec(acc, users, f, init);
      var prev := CollectQueries(acc, users, f, init);
      CollectSpec(prev, WhereIn(users, f, last));
      TokensOfQuery(users, f, last);
      FlattenAppend(init, last);
      TokensWhereAppend(users, f, Flatten(init), last);
    }
  }

  /** Grouping the values in any way, here by any group size the backend accepts, yields the same tokens. */
  lemma GroupingIrrelevant(users: seq<User>, f: Field, vals: seq<string>, size1: nat, size2: nat)
    requires 0 < size1 <= InQueryLimit && 0 < size2 <= InQueryLimit
    ensures ToSet(CollectQueries([], users, f, Chunks(vals, size1)))
         == ToSet(CollectQueries([], users, f, Chunks(vals, size2)))
         == TokensWhere(users, f, vals)
  {
    CollectQueriesSpec([], users, f, Chunks(vals, size1));
    CollectQueriesSpec([], users, f, Chunks(vals, size2));
    ChunksFlatten(vals, size1);
    ChunksFlatten(vals, size2);
  }

  /**
   * The resolved tokens are exactly the audience's tokens, whatever the
   * grouping into queries; none is empty and none appears twice.
   */
  lemma ResolvedTokensSpec(users: seq<User>, a: Announcement)
    ensures ToSet(ResolvedTokens(users, a)) == AudienceTokens(users, a)
    ensures NoDup(ResolvedTokens(users, a))
    ensures NonEmptyTokens(ResolvedTokens(users, a))
  {
    if TargetsEveryone(a) {
      CollectSpec([], users);
    } else {
      var byUid :=
        if |a.targetUids| > 0
        then CollectQueries([], users, DocumentId, Chunks(a.targetUids, InQueryLimit))
        else [];
      if |a.targetUids| > 0 {
        GroupingIrrelevant(users, DocumentId, a.targetUids, InQueryLimit, InQueryLimit);
        CollectQueriesSpec([], users, DocumentId, Chunks(a.targetUids, InQueryLimit));
      } else {
        assert TokensWhere(users, DocumentId, a.targetUids) == {};
      }
      assert ToSet(byUid) == TokensWhere(users, DocumentId, a.targetUids);
      if |a.targetClasses| > 0 {
        CollectQueriesSpec(byUid, users, Sinif, Chunks(a.targetClasses, InQueryLimit));
        ChunksFlatten(a.targetClasses, InQueryLimit);
      } else {
        assert TokensWhere(users, Sinif, a.targetClasses) == {};
      }
    }
  }

  /** With `targetAll` set, the target lists make no difference at all. */
  lemma TargetAllIgnoresLists(users: seq<User>, a: Announcement, uids: seq<string>, classes: seq<string>)
    requires a.targetAll
    ensures ResolvedTokens(users, a) == ResolvedTokens(users, a.(targetUids := uids, targetClasses := classes))
    ensures ToSet(ResolvedTokens(users, a)) == TokensIn(users)
  {
    ResolvedTokensSpec(users, a);
  }

  /**
   * Class targeting alone: every token belongs to a student of one of the
   * classes, and every such student with a token is reached.
   */
  lemma ClassesOnly(users: seq<User>, a: Announcement)
    requires !a.targetAll && |a.targetUids| == 0 && |a.targetClasses| > 0
    ensures ResolvedTokens(users, a) == CollectQueries([], users, Sinif, Chunks(a.targetClasses, InQueryLimit))
    ensures forall t :: t in ResolvedTokens(users, a) <==>
      exists u :: u in users && u.sinif.Some? && u.sinif.value in a.targetClasses && HasToken(u) && u.fcmToken.value == t
  {
    ResolvedTokensSpec(users, a);
    assert TokensWhere(users, DocumentId, a.targetUids) == {};
    forall t ensures t in ResolvedTokens(users, a) <==> t in TokensWhere(users, Sinif, a.targetClasses) {
      assert t in ResolvedTokens(users, a) <==> t in ToSet(ResolvedTokens(users, a));
    }
  }

  /**
   * Both lists given: ids and classes are unioned, not intersected, so a
   * student matching either one is reached.
   */
  lemma TargetedIsUnion(users: seq<User>, a: Announcement, u: User)
    requires !TargetsEveryone(a)
    requires u in users && HasToken(u)
    requires Matches(u, DocumentId, a.targetUids) || Matches(u, Sinif, a.targetClasses)
    ensures u.fcmToken.value in ResolvedTokens(users, a)
  {
    ResolvedTokensSpec(users, a);
    assert u.fcmToken.value in AudienceTokens(users, a);
    assert u.fcmToken.value in ToSet(ResolvedTokens(users, a));
  }

  /**
   * The `forEach` over one query result: each document's token, when it
   * has one, is added to the set.
   */
  method AddTokens(tokens: TokenSet, docs: seq<User>)
    requires tokens.Valid()
    modifies tokens
    ensures tokens.Valid() && tokens.items == Collect(old(tokens.items), docs)
  {
    for i := 0 to |docs|
      invariant tokens.Valid() && tokens.items == Collect(old(tokens.items), docs[..i])
    {
      assert docs[..i + 1][..i] == docs[..i];
      var t := docs[i].fcmToken;
      if t.Some? && t.value != "" {
        tokens.Add(t.value);
      }
    }
    assert docs[..|docs|] == docs;
  }

  /**
   * `for (const c of groups)`: one "in" query per value group, each
   * result passed to the `forEach` callback.
   */
  method QueryGroups(tokens: TokenSet, users: seq<User>, f: Field, groups: seq<seq<string>>)
    requires tokens.Valid()
    requires forall k :: 0 <= k < |groups| ==> 0 < |groups[k]| <= InQueryLimit
    modifies tokens
    ensures tokens.Valid() && tokens.items == CollectQueries(old(tokens.items), users, f, groups)
  {
    for k := 0 to |groups|
      invariant tokens.Valid()
      invariant tokens.items == CollectQueries(old(tokens.items), users, f, groups[..k])
    {
      assert groups[..k + 1][..k] == groups[..k];
      var qs := WhereIn(users, f, groups[k]);
      AddTokens(tokens, qs);
    }
    assert groups[..|groups|] == groups;
  }

  /**
   * Audience resolution as the handler runs it: the full scan, or the id
   * queries and then the class queries, ten values at a time.
   */
  method ResolveTokens(users: seq<User>, a: Announcement) returns (tokenList: seq<string>)
    ensures tokenList == ResolvedTokens(users, a)
    ensures ToSet(tokenList) == AudienceTokens(users, a)
    ensures NoDup(tokenList) && NonEmptyTokens(tokenList)
  {
    var tokens := new TokenSet();
    if a.targetAll || (|a.targetUids| == 0 && |a.targetClasses| == 0) {
      AddTokens(tokens, users);
    } else {
      if |a.targetUids| > 0 {
        var groups := Chunk(a.targetUids, InQueryLimit);
        QueryGroups(tokens, users, DocumentId, groups);
      }
      if |a.targetClasses| > 0 {
        var groups := Chunk(a.targetClasses, InQueryLimit);
        QueryGroups(tokens, users, Sinif, groups);
      }
    }
    tokenList := tokens.items;
    ResolvedTokensSpec(users, a);
  }
}
