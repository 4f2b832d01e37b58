/** Chains of replacements: a table of links, each from one ID to the next. */
module Chains {
  import opened Basics

  type Links = map<Id, Id>

  // The ID `n` links further on, if the chain is that long.
  function Followed(links: Links, k: Id, n: nat): Option<Id>
    decreases n
  {
    if n == 0 then Some(k)
    else if k in links then Followed(links, links[k], n - 1)
    else None
  }

  ghost predicate Reaches(links: Links, a: Id, b: Id) {
    exists n: nat :: Followed(links, a, n) == Some(b)
  }

  // Following the links from `k` stops.
  ghost predicate Ends(links: Links, k: Id) {
    exists n: nat :: EndsAfter(links, k, n)
  }

  ghost predicate EndsAfter(links: Links, k: Id, n: nat) {
    Followed(links, k, n).Some? && Followed(links, k, n).value !in links
  }

  ghost predicate AllEnd(links: Links) {
    forall k :: k in links ==> Ends(links, k)
  }

  ghost predicate Acyclic(links: Links) {
    forall k: Id, n: nat :: n > 0 ==> Followed(links, k, n) != Some(k)
  }

  lemma {:induction false} FollowedTwice(links: Links, k: Id, m: nat, n: nat)
    requires Followed(links, k, m).Some?
    ensures Followed(links, k, m + n) == Followed(links, Followed(links, k, m).value, n)
    decreases m
  {
    if m > 0 {
      FollowedTwice(links, links[k], m - 1, n);
    }
  }

  lemma {:induction false} ShorterIsDefined(links: Links, k: Id, m: nat, n: nat)
    requires m <= n && Followed(links, k, n).Some?
    ensures Followed(links, k, m).Some?
    decreases m
  {
    if m > 0 {
      ShorterIsDefined(links, links[k], m - 1, n - 1);
    }
  }

  // A cycle can be followed for ever.
  lemma {:induction false} CyclesGoOn(links: Links, k: Id, n: nat, m: nat)
    requires n > 0 && Followed(links, k, n) == Some(k)
    ensures Followed(links, k, m).Some?
    decreases m
  {
    if m <= n {
      ShorterIsDefined(links, k, m, n);
    } else {
      CyclesGoOn(links, k, n, m - n);
      FollowedTwice(links, k, n, m - n);
    }
  }

  lemma EndingIsAcyclic(links: Links)
    requires AllEnd(links)
    ensures Acyclic(links)
  {
    forall k: Id, n: nat | n > 0 && Followed(links, k, n) == Some(k) ensures false {
      assert k in links;
      assert Ends(links, k);
      var m: nat :| EndsAfter(links, k, m);
      CyclesGoOn(links, k, n, m + 1);
      FollowedTwice(links, k, m, 1);
      assert false;
    }
  }

  // A walk that never leaves from `x` is not affected by a link from `x`.
  lemma {:induction false} WalksSurvive(links: Links, x: Id, y: Id, k: Id, n: nat)
    requires x !in links && Followed(links, k, n).Some?
    ensures Followed(links[x := y], k, n) == Followed(links, k, n)
    decreases n
  {
    if n > 0 {
      WalksSurvive(links, x, y, links[k], n - 1);
    }
  }

  // Where the chain from `k` ended, it now ends there or goes on through the new link.
  lemma NewLinkEnds(links: Links, x: Id, y: Id, k: Id)
    requires x !in links && AllEnd(links) && !Reaches(links, y, x)
    ensures Ends(links[x := y], k)
  {
    var links' := links[x := y];
    EndOf(links, y);
    var j: nat :| EndsAfter(links, y, j);
    WalksSurvive(links, x, y, y, j);
    assert Followed(links, y, j) != Some(x);
    EndOf(links, k);
    var n: nat :| EndsAfter(links, k, n);
    WalksSurvive(links, x, y, k, n);
    if Followed(links, k, n).value == x {
      FollowedTwice(links', k, n, j + 1);
      assert EndsAfter(links', k, n + (j + 1));
    } else {
      assert EndsAfter(links', k, n);
    }
  }

  lemma EndOf(links: Links, k: Id)
    requires AllEnd(links)
    ensures Ends(links, k)
  {
    if k !in links {
      assert EndsAfter(links, k, 0);
    }
  }

  /** One more link keeps every chain ending exactly when its target does not
      already lead back to its source. */
  lemma NewLinkKeepsEnds(links: Links, x: Id, y: Id)
    requires x !in links && AllEnd(links)
    ensures AllEnd(links[x := y]) <==> !Reaches(links, y, x)
  {
    var links' := links[x := y];
    if Reaches(links, y, x) {
      var n: nat :| Followed(links, y, n) == Some(x);
      WalksSurvive(links, x, y, y, n);
      assert Followed(links', x, n + 1) == Some(x);
      if AllEnd(links') {
        EndingIsAcyclic(links');
      }
    } else {
      forall k | k in links' ensures Ends(links', k) {
        NewLinkEnds(links, x, y, k);
      }
    }
  }
}
