/**
  pygame's sprite-group collision query as the game uses it:
  `groupcollide(a, b, dokilla, dokillb)` visits the sprites of `a` and, for
  each, removes from `b` every sprite still there that overlaps it, and
  records the pair when there was at least one. A sprite of `b` taken by an
  earlier sprite of `a` is no longer there for later ones. The result is a
  dictionary in visiting order, modelled as the sequence of its keys and a
  map from each key to the sprites it took.
 */
module Groups {
  import opened Geometry

  function Elements<T>(s: seq<T>): set<T> {
    set x | x in s
  }

  predicate Distinct<T(==)>(s: seq<T>) {
    forall i, j :: 0 <= i < j < |s| ==> s[i] != s[j]
  }

  /** Every sprite of `b` that some key took. */
  function Taken<A, B>(hits: map<A, set<B>>): set<B> {
    set a, b | a in hits && b in hits[a] :: b
  }

  /** `crashed` and `hits` form a `groupcollide` answer over `ga` and `gb`:
      each key appears once and took a non-empty set of sprites of `gb`, all
      overlapping it, and no sprite was taken by two keys. */
  ghost predicate Collided<A, B>(ga: map<A, Rect>, gb: map<B, Rect>, crashed: seq<A>, hits: map<A, set<B>>) {
    hits.Keys == Elements(crashed) && Elements(crashed) <= ga.Keys && Distinct(crashed) &&
    (forall a :: a in hits ==> hits[a] != {} && hits[a] <= gb.Keys) &&
    (forall a, b :: a in hits && b in hits[a] ==> Overlaps(ga[a], gb[b])) &&
    (forall a, a' :: a in hits && a' in hits && a != a' ==> hits[a] !! hits[a'])
  }

  /** No sprite of `ga` among `visited` overlaps a sprite of `gb` outside `consumed`. */
  ghost predicate Exhausted<A, B>(ga: map<A, Rect>, gb: map<B, Rect>, visited: set<A>, consumed: set<B>)
    requires visited <= ga.Keys
  {
    forall a, b :: a in visited && b in gb && b !in consumed ==> !Overlaps(ga[a], gb[b])
  }

  /** Each key, in visiting order, took every sprite of `gb` that overlaps it
      and that no earlier key had taken, as `dokill` on `gb` does. */
  ghost predicate Greedy<A, B>(ga: map<A, Rect>, gb: map<B, Rect>, crashed: seq<A>, hits: map<A, set<B>>)
    requires Elements(crashed) <= ga.Keys && hits.Keys == Elements(crashed)
  {
    forall k, b :: 0 <= k < |crashed| && b in gb && Overlaps(ga[crashed[k]], gb[b]) ==>
      b in hits[crashed[k]] || exists j :: 0 <= j < k && b in hits[crashed[j]]
  }

  lemma TakenAdd<A, B>(hits: map<A, set<B>>, a: A, hit: set<B>)
    requires a !in hits
    ensures Taken(hits[a := hit]) == Taken(hits) + hit
  {
    var h' := hits[a := hit];
    forall b | b in Taken(h') ensures b in Taken(hits) + hit {
      var a' :| a' in h' && b in h'[a'];
      if a' != a { assert b in hits[a']; }
    }
    forall b | b in Taken(hits) + hit ensures b in Taken(h') {
      if b !in hit {
        var a' :| a' in hits && b in hits[a'];
        assert a' in h' && b in h'[a'];
      } else {
        assert a in h' && b in h'[a];
      }
    }
  }

  lemma VisitExhausts<A, B>(ga: map<A, Rect>, gb: map<B, Rect>, visited: set<A>, consumed: set<B>, a: A, hit: set<B>)
    requires visited <= ga.Keys && a in ga
    requires Exhausted(ga, gb, visited, consumed)
    requires hit == set b | b in gb && b !in consumed && Overlaps(ga[a], gb[b])
    ensures Exhausted(ga, gb, visited + {a}, consumed + hit)
  {
  }

  lemma VisitCollides<A, B>(ga: map<A, Rect>, gb: map<B, Rect>, crashed: seq<A>, hits: map<A, set<B>>, a: A, hit: set<B>)
    requires a in ga && a !in hits
    requires Collided(ga, gb, crashed, hits)
    requires hit != {} && hit <= gb.Keys && hit !! Taken(hits)
    requires forall b :: b in hit ==> Overlaps(ga[a], gb[b])
    ensures Collided(ga, gb, crashed + [a], hits[a := hit])
  {
    var c', h' := crashed + [a], hits[a := hit];
    assert Elements(c') == Elements(crashed) + {a};
    forall a1, a2 | a1 in h' && a2 in h' && a1 != a2 ensures h'[a1] !! h'[a2] {
      if a1 == a {
        assert h'[a2] <= Taken(hits);
      } else if a2 == a {
        assert h'[a1] <= Taken(hits);
      }
    }
  }

  lemma VisitGreedy<A, B>(ga: map<A, Rect>, gb: map<B, Rect>, crashed: seq<A>, hits: map<A, set<B>>, a: A, hit: set<B>)
    requires a in ga && a !in hits
    requires Collided(ga, gb, crashed, hits) && Greedy(ga, gb, crashed, hits)
    requires hit == set b | b in gb && b !in Taken(hits) && Overlaps(ga[a], gb[b])
    ensures Elements(crashed + [a]) <= ga.Keys && hits[a := hit].Keys == Elements(crashed + [a])
    ensures Greedy(ga, gb, crashed + [a], hits[a := hit])
  {
    var c', h' := crashed + [a], hits[a := hit];
    assert Elements(c') == Elements(crashed) + {a};
    forall k, b | 0 <= k < |c'| && b in gb && Overlaps(ga[c'[k]], gb[b])
      ensures b in h'[c'[k]] || exists j :: 0 <= j < k && b in h'[c'[j]]
    {
      if k < |crashed| {
        assert c'[k] == crashed[k] && crashed[k] in hits;
        if b !in hits[crashed[k]] {
          var j :| 0 <= j < k && b in hits[crashed[j]];
          assert c'[j] == crashed[j] && b in h'[c'[j]];
        }
      } else if b !in hit {
        var a' :| a' in hits && b in hits[a'];
        var j :| 0 <= j < |crashed| && crashed[j] == a';
        assert c'[j] == a' && b in h'[c'[j]];
      }
    }
  }

  /**
    `groupcollide(ga, gb, dokilla, True)`, the maps giving each sprite's
    rectangle. The order in which `ga` is visited is not fixed: the result
    holds whatever order is taken. Afterwards no sprite of `ga` overlaps a
    sprite of `gb` that was not taken.
   */
  method GroupCollide<A, B>(ga: map<A, Rect>, gb: map<B, Rect>) returns (crashed: seq<A>, hits: map<A, set<B>>)
    ensures Collided(ga, gb, crashed, hits)
    ensures Exhausted(ga, gb, ga.Keys, Taken(hits))
    ensures Greedy(ga, gb, crashed, hits)
  {
    var todo := ga.Keys;
    crashed, hits := [], map[];
    var consumed: set<B> := {};
    while todo != {}
      invariant todo <= ga.Keys
      invariant Collided(ga, gb, crashed, hits)
      invariant Elements(crashed) <= ga.Keys - todo
      invariant consumed == Taken(hits)
      invariant Exhausted(ga, gb, ga.Keys - todo, consumed)
      invariant Greedy(ga, gb, crashed, hits)
      decreases todo
    {
      var a :| a in todo;
      var hit := set b | b in gb && b !in consumed && Overlaps(ga[a], gb[b]);
      VisitExhausts(ga, gb, ga.Keys - todo, consumed, a, hit);
      if hit != {} {
        TakenAdd(hits, a, hit);
        VisitGreedy(ga, gb, crashed, hits, a, hit);
        VisitCollides(ga, gb, crashed, hits, a, hit);
        crashed := crashed + [a];
        hits := hits[a := hit];
        consumed := consumed + hit;
      }
      todo := todo - {a};
    }
  }

  /** A `groupcollide` answer is empty unless some pair of the two groups overlaps. */
  lemma CollisionNeedsOverlap<A, B>(ga: map<A, Rect>, gb: map<B, Rect>, crashed: seq<A>, hits: map<A, set<B>>)
    requires Collided(ga, gb, crashed, hits)
    ensures (crashed == [] && hits == map[]) || exists a, b :: a in ga && b in gb && Overlaps(ga[a], gb[b])
  {
    if crashed != [] {
      var a := crashed[0];
      assert a in hits;
      var b :| b in hits[a];
      assert Overlaps(ga[a], gb[b]);
    }
  }

  /** Adding the distinct elements of `s`, none already in `a`, grows `a` by |s|. */
  lemma {:induction false} CardinalityAdd<T>(a: set<T>, s: seq<T>)
    requires Distinct(s) && Elements(s) !! a
    ensures |a + Elements(s)| == |a| + |s|
  {
    if s != [] {
      var last := s[|s| - 1];
      var init := s[..|s| - 1];
      assert Elements(s) == Elements(init) + {last};
      assert last !in Elements(init);
      CardinalityAdd(a, init);
      assert a + Elements(s) == (a + Elements(init)) + {last};
    } else {
      assert Elements(s) == {};
    }
  }

  /** Binding a new key to `v` adds `v` to the values of a map. */
  lemma ValuesAdd<K, V>(m: map<K, V>, k: K, v: V)
    requires k !in m
    ensures m[k := v].Values == m.Values + {v}
  {
    forall x | x in m[k := v].Values ensures x in m.Values + {v} {
      var k' :| k' in m[k := v] && m[k := v][k'] == x;
      if k' != k {
        assert m[k'] == x;
      }
    }
    forall x | x in m.Values ensures x in m[k := v].Values {
      var k' :| k' in m && m[k'] == x;
      assert m[k := v][k'] == x;
    }
    assert m[k := v][k] == v;
  }

  /** A subset is no larger than the set it is taken from. */
  lemma SubsetCardinality<T>(a: set<T>, b: set<T>)
    requires a <= b
    ensures |a| <= |b|
  {
    assert b == a + (b - a);
  }
}
