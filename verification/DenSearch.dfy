/**
  Searching the food database (tools/den/den.py): letters typed so far match an
  identifier that holds them in order. The greedy scan finds the letters if
  there is any way to, and what is found is offered prefix matches first.
*/
module DenSearch {
  import opened Prelude
  import opened DenText

  /** Places in the candidate where the letters stand, in order. */
  ghost predicate Embeds(wanted: string, candidate: string, at: seq<nat>) {
    && |at| == |wanted|
    && (forall i :: 0 <= i < |at| ==> at[i] < |candidate| && candidate[at[i]] == wanted[i])
    && (forall i, j :: 0 <= i < j < |at| ==> at[i] < at[j])
  }

  ghost predicate Subsequence(wanted: string, candidate: string) {
    exists at :: Embeds(wanted, candidate, at)
  }

  /** `str.find`, with the length for not found. */
  function Find(s: string, letter: char, from: nat): (k: nat)
    requires from <= |s|
    ensures from <= k <= |s|
    ensures forall i :: from <= i < k ==> s[i] != letter
    ensures k < |s| ==> s[k] == letter
    decreases |s| - from
  {
    if from == |s| || s[from] == letter then from else Find(s, letter, from + 1)
  }

  /** `_within`: true exactly when the query is a subsequence of the candidate. */
  method Within(wanted: string, candidate: string) returns (found: bool)
    ensures found <==> Subsequence(wanted, candidate)
  {
    var next := 0;
    ghost var at: seq<nat> := [];
    var i := 0;
    while i < |wanted|
      invariant 0 <= i <= |wanted| && next <= |candidate|
      invariant Embeds(wanted[..i], candidate, at)
      invariant next == if i == 0 then 0 else at[i - 1] + 1
      invariant forall other: seq<nat> :: Embeds(wanted, candidate, other) && i > 0 ==> at[i - 1] <= other[i - 1]
    {
      var k := Find(candidate, wanted[i], next);
      GreedyIsLeftmost(wanted, candidate, at, i, k);
      if k == |candidate| {
        return false;
      }
      at := at + [k];
      assert wanted[..i + 1] == wanted[..i] + [wanted[i]];
      next := k + 1;
      i := i + 1;
    }
    assert wanted[..|wanted|] == wanted;
    return true;
  }

  /** However the letters are placed, the next one stands no earlier than where the scan finds it. */
  lemma GreedyIsLeftmost(wanted: string, candidate: string, at: seq<nat>, i: nat, k: nat)
    requires i < |wanted| && Embeds(wanted[..i], candidate, at)
    requires forall other: seq<nat> :: Embeds(wanted, candidate, other) && i > 0 ==> at[i - 1] <= other[i - 1]
    requires k == Find(candidate, wanted[i], if i == 0 then 0 else at[i - 1] + 1)
    ensures forall other: seq<nat> :: Embeds(wanted, candidate, other) ==> k <= other[i] < |candidate|
  {
    forall other: seq<nat> | Embeds(wanted, candidate, other) ensures k <= other[i] < |candidate| {
      assert i > 0 ==> other[i - 1] < other[i];
    }
  }

  // ---- the list that is offered ----

  /** The sort key `(not starts, id)`. */
  predicate Precedes(wanted: string, a: string, b: string) {
    || (wanted <= a && !(wanted <= b))
    || ((wanted <= a <==> wanted <= b) && Before(a, b))
  }

  ghost predicate Offered(wanted: string, list: seq<string>) {
    forall i, j :: 0 <= i < j < |list| ==> Precedes(wanted, list[i], list[j])
  }

  lemma PrecedesTransitive(wanted: string, a: string, b: string, c: string)
    requires Precedes(wanted, a, b) && Precedes(wanted, b, c)
    ensures Precedes(wanted, a, c)
  {
    if (wanted <= a) == (wanted <= b) == (wanted <= c) {
      BeforeTransitive(a, b, c);
    }
  }

  /** One more identifier, in its place. */
  method Place(wanted: string, list: seq<string>, id: string) returns (longer: seq<string>)
    requires Offered(wanted, list) && id !in list
    ensures Offered(wanted, longer)
    ensures forall x :: x in longer <==> x in list || x == id
  {
    var k := |list|;
    while k > 0 && Precedes(wanted, id, list[k - 1])
      invariant 0 <= k <= |list|
      invariant forall i :: k <= i < |list| ==> Precedes(wanted, id, list[i])
    {
      k := k - 1;
    }
    BeforeIt(wanted, list, id, k);
    longer := list[..k] + [id] + list[k..];
    assert list == list[..k] + list[k..];
  }

  lemma BeforeIt(wanted: string, list: seq<string>, id: string, k: nat)
    requires k <= |list| && Offered(wanted, list) && id !in list
    requires k > 0 ==> !Precedes(wanted, id, list[k - 1])
    ensures forall i :: 0 <= i < k ==> Precedes(wanted, list[i], id)
  {
    if k > 0 {
      BeforeTotal(list[k - 1], id);
      forall i | 0 <= i < k ensures Precedes(wanted, list[i], id) {
        if i < k - 1 {
          PrecedesTransitive(wanted, list[i], list[k - 1], id);
        }
      }
    }
  }

  /** `Database.query`: every identifier that matches, prefix matches first, each group by name. */
  method Query(ids: seq<string>, words: string) returns (found: Option<seq<string>>)
    requires forall i, j :: 0 <= i < j < |ids| ==> ids[i] != ids[j]
    ensures var wanted := Lower(Strip(words));
      match found
      case None => wanted == ""
      case Some(list) =>
        && wanted != ""
        && (forall id :: id in list <==> id in ids && Subsequence(wanted, id))
        && Offered(wanted, list)
  {
    hide Strip, Lower, Subsequence, Offered;
    var wanted := Lower(Strip(words));
    if wanted == "" {
      return None;
    }
    var list: seq<string> := [];
    assert Offered(wanted, list) by { NothingOffered(wanted); }
    for i := 0 to |ids|
      invariant Offered(wanted, list)
      invariant forall id :: id in list <==> id in ids[..i] && Subsequence(wanted, id)
    {
      assert ids[..i + 1] == ids[..i] + [ids[i]];
      var matches := Within(wanted, ids[i]);
      if matches {
        assert ids[i] !in ids[..i];
        list := Place(wanted, list, ids[i]);
      }
    }
    assert ids[..|ids|] == ids;
    return Some(list);
  }

  lemma NothingOffered(wanted: string)
    ensures Offered(wanted, [])
  {
  }

  /** There is only one such list. */
  lemma {:induction false} OfferedIsUnique(wanted: string, a: seq<string>, b: seq<string>)
    requires Offered(wanted, a) && Offered(wanted, b)
    requires forall x :: x in a <==> x in b
    ensures a == b
    decreases |a|
  {
    if a == [] {
      HasMember(b);
    } else {
      assert a[0] in b && b != [] && b[0] in a;
      SameFirst(wanted, a, b);
      Irreflexive(wanted, a);
      Irreflexive(wanted, b);
      OfferedIsUnique(wanted, a[1..], b[1..]);
      assert a == [a[0]] + a[1..] && b == [b[0]] + b[1..];
    }
  }

  lemma HasMember(list: seq<string>)
    ensures list != [] ==> exists x :: x in list
  {
    if list != [] {
      assert list[0] in list;
    }
  }

  lemma SameFirst(wanted: string, a: seq<string>, b: seq<string>)
    requires Offered(wanted, a) && Offered(wanted, b) && a != [] && b != []
    requires a[0] in b && b[0] in a
    ensures a[0] == b[0]
  {
    var i :| 0 <= i < |a| && a[i] == b[0];
    var j :| 0 <= j < |b| && b[j] == a[0];
    if i > 0 && j > 0 && (wanted <= a[0]) == (wanted <= b[0]) {
      BeforeAsymmetric(a[0], b[0]);
    }
  }

  lemma Irreflexive(wanted: string, list: seq<string>)
    requires Offered(wanted, list) && list != []
    ensures forall x :: x in list[1..] <==> x in list && x != list[0]
  {
    forall i | 0 < i < |list| ensures list[i] != list[0] {
      if (wanted <= list[0]) == (wanted <= list[i]) {
        BeforeAsymmetric(list[0], list[i]);
      }
    }
    assert list == [list[0]] + list[1..];
  }
}
