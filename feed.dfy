/**
 * Id-based list operations on posts used by the timeline: the set of ids of
 * a list, uniqueness by id, Kotlin's `distinctBy { it.id }` (the first
 * occurrence of each id wins) and the selection of genuinely new posts of a
 * live batch.
 */
module Feed {
  import opened Posts

  /** The ids occurring in `s`. */
  function Ids(s: seq<Post>): set<string> {
    set x | x in s :: x.id
  }

  /** No two entries of `s` share an id. */
  predicate UniqueIds(s: seq<Post>) {
    forall i, j :: 0 <= i < j < |s| ==> s[i].id != s[j].id
  }

  lemma IdsAppend(a: seq<Post>, b: seq<Post>)
    ensures Ids(a + b) == Ids(a) + Ids(b)
  {
    assert forall x :: x in a + b <==> x in a || x in b;
  }

  lemma IdsCons(x: Post, s: seq<Post>)
    ensures Ids([x] + s) == {x.id} + Ids(s)
  {
    IdsAppend([x], s);
  }

  /**
   * The entries of `s` in order, skipping every entry whose id is in `seen`
   * or occurred earlier in `s`: `distinctBy` continued after the ids `seen`.
   */
  function Dedup(s: seq<Post>, seen: set<string>): (r: seq<Post>)
    ensures UniqueIds(r)
    ensures Ids(r) == Ids(s) - seen
    ensures forall x :: x in r ==> x in s
    ensures |r| <= |s|
  {
    if s == [] then []
    else
      IdsCons(s[0], s[1..]);
      assert s == [s[0]] + s[1..];
      if s[0].id in seen then Dedup(s[1..], seen)
      else
        var rest := Dedup(s[1..], seen + {s[0].id});
        IdsCons(s[0], rest);
        assert forall j :: 0 <= j < |rest| ==> rest[j] in rest;
        [s[0]] + rest
  }

  /** Kotlin's `distinctBy { it.id }`: the first entry of each id, in order. */
  function DistinctById(s: seq<Post>): (r: seq<Post>)
    ensures UniqueIds(r) && Ids(r) == Ids(s)
    ensures forall x :: x in r ==> x in s
  {
    Dedup(s, {})
  }

  /** Deduplicating a concatenation: the second part only contributes ids the first lacks. */
  lemma {:induction false} DedupAppend(a: seq<Post>, b: seq<Post>, seen: set<string>)
    ensures Dedup(a + b, seen) == Dedup(a, seen) + Dedup(b, seen + Ids(a))
  {
    if a == [] {
      assert a + b == b;
      assert seen + Ids(a) == seen;
    } else {
      assert (a + b)[0] == a[0];
      assert (a + b)[1..] == a[1..] + b;
      IdsCons(a[0], a[1..]);
      assert a == [a[0]] + a[1..];
      if a[0].id in seen {
        DedupAppend(a[1..], b, seen);
        assert seen + Ids(a[1..]) == seen + Ids(a);
      } else {
        DedupAppend(a[1..], b, seen + {a[0].id});
        assert seen + {a[0].id} + Ids(a[1..]) == seen + Ids(a);
      }
    }
  }

  /** A list without repeated ids and without ids in `seen` is left as it is. */
  lemma {:induction false} DedupOfUnique(s: seq<Post>, seen: set<string>)
    requires UniqueIds(s) && Ids(s) !! seen
    ensures Dedup(s, seen) == s
  {
    if s != [] {
      assert s[0] in s;
      IdsCons(s[0], s[1..]);
      assert s == [s[0]] + s[1..];
      assert s[0].id !in Ids(s[1..]);
      DedupOfUnique(s[1..], seen + {s[0].id});
    }
  }

  /** Nothing survives when every id has been seen. */
  lemma {:induction false} DedupAllSeen(s: seq<Post>, seen: set<string>)
    requires Ids(s) <= seen
    ensures Dedup(s, seen) == []
  {
    if s != [] {
      IdsCons(s[0], s[1..]);
      assert s == [s[0]] + s[1..];
      DedupAllSeen(s[1..], seen);
    }
  }

  /** `distinctBy` leaves a list without repeated ids unchanged. */
  lemma DistinctOfUnique(s: seq<Post>)
    requires UniqueIds(s)
    ensures DistinctById(s) == s
  {
    DedupOfUnique(s, {});
  }

  /**
   * Appending `b` after `a` and deduplicating: `a` deduplicated, followed by
   * the entries of `b` whose ids `a` lacks.
   */
  lemma DistinctAppend(a: seq<Post>, b: seq<Post>)
    ensures DistinctById(a + b) == DistinctById(a) + Dedup(b, Ids(a))
  {
    DedupAppend(a, b, {});
    assert {} + Ids(a) == Ids(a);
  }

  /**
   * Putting `a` in front again of an already merged `distinctBy(a + b)`
   * changes nothing: merging the same posts twice is merging them once.
   */
  lemma DistinctAbsorbs(a: seq<Post>, b: seq<Post>)
    ensures DistinctById(a + DistinctById(a + b)) == DistinctById(a + b)
  {
    var da := DistinctById(a);
    var db := Dedup(b, Ids(a));
    DistinctAppend(a, b);
    DistinctAppend(a, da + db);
    DedupAppend(da, db, Ids(a));
    DedupAllSeen(da, Ids(a));
    assert Ids(a) + Ids(da) == Ids(a);
    DedupOfUnique(db, Ids(a));
    assert [] + db == db;
  }

  /** The posts of `latest` whose ids do not occur in `current`, in delivery order. */
  function NewPosts(latest: seq<Post>, current: seq<Post>): (r: seq<Post>)
    ensures forall x :: x in r <==> x in latest && x.id !in Ids(current)
    ensures |r| <= |latest|
    ensures Ids(r) == Ids(latest) - Ids(current)
  {
    if latest == [] then []
    else
      IdsCons(latest[0], latest[1..]);
      assert latest == [latest[0]] + latest[1..];
      var rest := NewPosts(latest[1..], current);
      if latest[0].id in Ids(current) then rest
      else
        IdsCons(latest[0], rest);
        [latest[0]] + rest
  }

  /**
   * Selecting the new posts of a concatenation selects from each part: the
   * new posts keep the order in which the batch delivered them.
   */
  lemma {:induction false} NewPostsAppend(a: seq<Post>, b: seq<Post>, current: seq<Post>)
    ensures NewPosts(a + b, current) == NewPosts(a, current) + NewPosts(b, current)
  {
    if a == [] {
      assert a + b == b;
    } else {
      assert (a + b)[0] == a[0];
      assert (a + b)[1..] == a[1..] + b;
      NewPostsAppend(a[1..], b, current);
    }
  }

  /** A batch whose ids are all known has nothing new. */
  lemma NoNewPosts(latest: seq<Post>, current: seq<Post>)
    requires Ids(latest) <= Ids(current)
    ensures NewPosts(latest, current) == []
  {
  }

  /** A batch without repeated ids keeps that property after the known posts are removed. */
  lemma {:induction false} NewPostsUnique(latest: seq<Post>, current: seq<Post>)
    requires UniqueIds(latest)
    ensures UniqueIds(NewPosts(latest, current))
  {
    if latest != [] {
      assert latest[0] in latest;
      NewPostsUnique(latest[1..], current);
      var rest := NewPosts(latest[1..], current);
      assert latest[0].id !in Ids(rest);
      if latest[0].id !in Ids(current) {
        forall j | 0 <= j < |rest| ensures rest[j].id != latest[0].id {
          assert rest[j] in rest;
        }
      }
    }
  }
}
