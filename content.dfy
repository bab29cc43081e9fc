/**
 * The content source and the post meta the scan writes.
 *
 * The posts table is a sequence of posts in the order the queries return them;
 * a query for some post types and statuses is a filter over it. Post meta
 * `wpmudev_test_last_scan` is a map from post id to the stored value.
 */
module Content {

  datatype PostStatus = Publish | Draft | Private | Pending | Future | Trash | AutoDraft | Inherit

  datatype Post = Post(id: int, postType: string, status: PostStatus)

  /** The statuses the unit-test double queries (everything but auto-drafts and revisions). */
  const AnyListedStatus: set<PostStatus> := {Publish, Draft, Private, Pending, Future, Trash}

  predicate Selected(p: Post, types: seq<string>, statuses: set<PostStatus>)
  {
    p.postType in types && p.status in statuses
  }

  /** Ids of the posts of the given types and statuses, in query order. */
  function Matching(catalog: seq<Post>, types: seq<string>, statuses: set<PostStatus>): (ids: seq<int>)
    ensures |ids| <= |catalog|
    ensures forall i :: 0 <= i < |catalog| && Selected(catalog[i], types, statuses) ==> catalog[i].id in ids
    ensures forall x :: x in ids ==> exists i :: 0 <= i < |catalog| && Selected(catalog[i], types, statuses) && catalog[i].id == x
  {
    if |catalog| == 0 then []
    else
      var rest := Matching(catalog[1..], types, statuses);
      assert forall x :: x in rest ==> exists i :: 0 <= i < |catalog| && Selected(catalog[i], types, statuses) && catalog[i].id == x by {
        forall x | x in rest
          ensures exists i :: 0 <= i < |catalog| && Selected(catalog[i], types, statuses) && catalog[i].id == x
        {
          var j :| 0 <= j < |catalog[1..]| && Selected(catalog[1..][j], types, statuses) && catalog[1..][j].id == x;
          assert catalog[j + 1] == catalog[1..][j];
        }
      }
      if Selected(catalog[0], types, statuses) then [catalog[0].id] + rest else rest
  }

  /** `post_status => 'publish'` queries: what the admin engine and both commands read. */
  function Published(catalog: seq<Post>, types: seq<string>): seq<int>
  {
    Matching(catalog, types, {Publish})
  }

  /** Post ids are primary keys. */
  ghost predicate UniqueIds(catalog: seq<Post>)
  {
    forall i, j :: 0 <= i < j < |catalog| ==> catalog[i].id != catalog[j].id
  }

  ghost predicate Distinct(ids: seq<int>)
  {
    forall i, j :: 0 <= i < j < |ids| ==> ids[i] != ids[j]
  }

  /** A query over a table with unique ids never returns an id twice. */
  lemma {:induction false} MatchingDistinct(catalog: seq<Post>, types: seq<string>, statuses: set<PostStatus>)
    requires UniqueIds(catalog)
    ensures Distinct(Matching(catalog, types, statuses))
  {
    if |catalog| > 0 {
      var tail := catalog[1..];
      assert UniqueIds(tail) by {
        forall i, j | 0 <= i < j < |tail| ensures tail[i].id != tail[j].id {
          assert tail[i] == catalog[i + 1] && tail[j] == catalog[j + 1];
        }
      }
      MatchingDistinct(tail, types, statuses);
      var rest := Matching(tail, types, statuses);
      if Selected(catalog[0], types, statuses) {
        var r := [catalog[0].id] + rest;
        assert catalog[0].id !in rest by {
          forall j | 0 <= j < |tail| ensures tail[j].id != catalog[0].id {
            assert tail[j] == catalog[j + 1];
          }
        }
        forall i, j | 0 <= i < j < |r| ensures r[i] != r[j] {
          if i == 0 {
            assert r[j] == rest[j - 1];
          } else {
            assert r[i] == rest[i - 1] && r[j] == rest[j - 1];
          }
        }
      }
    }
  }

  /** The stored value of `wpmudev_test_last_scan`: a Unix time, or a MySQL date string. */
  datatype MetaValue = Epoch(seconds: int) | DateTime(text: string)

  /** `update_post_meta( $id, 'wpmudev_test_last_scan', v )` for each id of `ids`, in order. */
  function Stamp(meta: map<int, MetaValue>, ids: seq<int>, v: MetaValue): (r: map<int, MetaValue>)
    decreases |ids|
  {
    if |ids| == 0 then meta else Stamp(meta, ids[..|ids| - 1], v)[ids[|ids| - 1] := v]
  }

  /** After stamping, every listed id holds `v` and every other post keeps its meta. */
  lemma {:induction false} StampedExactly(meta: map<int, MetaValue>, ids: seq<int>, v: MetaValue)
    ensures Stamp(meta, ids, v).Keys == meta.Keys + set x | x in ids
    ensures forall x :: x in ids ==> Stamp(meta, ids, v)[x] == v
    ensures forall x :: x in meta && x !in ids ==> Stamp(meta, ids, v)[x] == meta[x]
    decreases |ids|
  {
    if |ids| > 0 {
      var init := ids[..|ids| - 1];
      StampedExactly(meta, init, v);
      assert ids == init + [ids[|ids| - 1]];
      assert forall x :: x in ids <==> x in init || x == ids[|ids| - 1];
    }
  }

  /** Stamping in two runs is stamping once with the concatenation. */
  lemma {:induction false} StampConcat(meta: map<int, MetaValue>, xs: seq<int>, ys: seq<int>, v: MetaValue)
    ensures Stamp(Stamp(meta, xs, v), ys, v) == Stamp(meta, xs + ys, v)
    decreases |ys|
  {
    if |ys| == 0 {
      assert xs + ys == xs;
    } else {
      var init := ys[..|ys| - 1];
      StampConcat(meta, xs, init, v);
      assert (xs + ys)[..|xs + ys| - 1] == xs + init;
    }
  }

  /** Stamping the next run of a list after its prefix stamps the longer prefix. */
  lemma StampNextRun(meta: map<int, MetaValue>, ids: seq<int>, done: int, run: seq<int>, v: MetaValue)
    requires 0 <= done && done + |run| <= |ids|
    requires forall i :: 0 <= i < |run| ==> run[i] == ids[done + i]
    ensures Stamp(Stamp(meta, ids[..done], v), run, v) == Stamp(meta, ids[..done + |run|], v)
  {
    StampConcat(meta, ids[..done], run, v);
    assert ids[..done] + run == ids[..done + |run|];
  }

  /** Stamping one more id extends the stamped list by that id. */
  lemma StampSnoc(meta: map<int, MetaValue>, ids: seq<int>, x: int, v: MetaValue)
    ensures Stamp(meta, ids, v)[x := v] == Stamp(meta, ids + [x], v)
  {
    assert (ids + [x])[..|ids|] == ids;
  }
}
