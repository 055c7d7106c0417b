/**
 * The notification log of a provider and what it means for a broadcast to
 * reach a listener set. A provider calls the listeners of a set in an order
 * the set chooses, so a broadcast is described by what it must contain (each
 * listener exactly once, with the broadcast value) rather than by its order.
 */
module Listeners {
  import opened AuthTypes

  ghost function Recipients(d: seq<Notification>): set<Handle>
  {
    set n | n in d :: n.handle
  }

  ghost predicate Distinct(d: seq<Notification>)
  {
    forall i, j | 0 <= i < j < |d| :: d[i].handle != d[j].handle
  }

  /** `d` calls every listener in `hs` exactly once with `p`, and nothing else. */
  ghost predicate FanOut(d: seq<Notification>, hs: set<Handle>, p: Payload)
  {
    && |d| == |hs|
    && Recipients(d) == hs
    && Distinct(d)
    && forall n | n in d :: n.payload == p
  }

  /** `d` is the broadcasts of `sent`, one after another, each to the listeners of its kind in `reg`. */
  ghost predicate Delivered(d: seq<Notification>, sent: seq<Payload>, reg: Registry)
    decreases |sent|
  {
    if sent == [] then d == []
    else
      var hs := reg.Listeners(sent[0].Kind());
      && |hs| <= |d|
      && FanOut(d[..|hs|], hs, sent[0])
      && Delivered(d[|hs|..], sent[1..], reg)
  }

  /** `log` is `log0` followed by the delivery of `sent`. */
  ghost predicate Extends(log0: seq<Notification>, log: seq<Notification>, sent: seq<Payload>, reg: Registry)
  {
    && |log0| <= |log|
    && log[..|log0|] == log0
    && Delivered(log[|log0|..], sent, reg)
  }

  lemma {:induction false} DeliveredAppend(d1: seq<Notification>, s1: seq<Payload>, d2: seq<Notification>, s2: seq<Payload>, reg: Registry)
    requires Delivered(d1, s1, reg) && Delivered(d2, s2, reg)
    ensures Delivered(d1 + d2, s1 + s2, reg)
    decreases |s1|
  {
    if s1 == [] {
      assert d1 + d2 == d2;
      assert s1 + s2 == s2;
    } else {
      var k := |reg.Listeners(s1[0].Kind())|;
      assert (d1 + d2)[..k] == d1[..k];
      assert (d1 + d2)[k..] == d1[k..] + d2;
      assert (s1 + s2)[0] == s1[0];
      assert (s1 + s2)[1..] == s1[1..] + s2;
      DeliveredAppend(d1[k..], s1[1..], d2, s2, reg);
    }
  }

  lemma ExtendsNothing(log: seq<Notification>, reg: Registry)
    ensures Extends(log, log, [], reg)
  {
    assert log[|log|..] == [];
  }

  lemma {:induction false} ExtendsTrans(a: seq<Notification>, b: seq<Notification>, c: seq<Notification>,
                                        s1: seq<Payload>, s2: seq<Payload>, reg: Registry)
    requires Extends(a, b, s1, reg) && Extends(b, c, s2, reg)
    ensures Extends(a, c, s1 + s2, reg)
  {
    assert c[..|a|] == b[..|b|][..|a|];
    assert c[|a|..] == b[|a|..] + c[|b|..];
    DeliveredAppend(b[|a|..], s1, c[|b|..], s2, reg);
  }

  /** `d` is a fan-out of `p` in progress: it has called exactly the listeners of `hs` not left in `rest`. */
  ghost predicate PartialFanOut(d: seq<Notification>, hs: set<Handle>, rest: set<Handle>, p: Payload)
  {
    && rest <= hs
    && |d| + |rest| == |hs|
    && Recipients(d) == hs - rest
    && Distinct(d)
    && forall n | n in d :: n.payload == p
  }

  lemma PartialFanOutStart(hs: set<Handle>, p: Payload)
    ensures PartialFanOut([], hs, hs, p)
  {
  }

  /** Calling one more listener still waiting keeps the fan-out in progress. */
  lemma PartialFanOutStep(d: seq<Notification>, hs: set<Handle>, rest: set<Handle>, p: Payload, h: Handle)
    requires PartialFanOut(d, hs, rest, p) && h in rest
    ensures PartialFanOut(d + [Notification(h, p)], hs, rest - {h}, p)
  {
    var d' := d + [Notification(h, p)];
    assert Recipients(d') == Recipients(d) + {h};
    forall i, j | 0 <= i < j < |d'| ensures d'[i].handle != d'[j].handle {
      if j == |d| {
        assert d[i] in d;
      }
    }
  }

  lemma PartialFanOutDone(d: seq<Notification>, hs: set<Handle>, p: Payload)
    requires PartialFanOut(d, hs, {}, p)
    ensures FanOut(d, hs, p)
  {
  }

  /** A single fan-out of `p` to the listeners of its kind delivers `[p]`. */
  lemma ExtendsByFanOut(log0: seq<Notification>, d: seq<Notification>, p: Payload, reg: Registry)
    requires FanOut(d, reg.Listeners(p.Kind()), p)
    ensures Extends(log0, log0 + d, [p], reg)
  {
    var log := log0 + d;
    assert log[..|log0|] == log0;
    assert log[|log0|..] == d;
    assert d[..|d|] == d;
    assert d[|d|..] == [];
    assert [p][1..] == [];
  }

  /** With no listeners registered, delivering any broadcasts calls nobody. */
  lemma {:induction false} DeliveredToNobody(d: seq<Notification>, sent: seq<Payload>)
    requires Delivered(d, sent, Registry({}, {}, {}, {}))
    ensures d == []
    decreases |sent|
  {
    if sent != [] {
      var reg := Registry({}, {}, {}, {});
      assert |reg.Listeners(sent[0].Kind())| == 0;
      DeliveredToNobody(d[0..], sent[1..]);
    }
  }

  // What a single listener sees

  /** The values handed to listener `h`, in the order they were handed over. */
  function Seen(d: seq<Notification>, h: Handle): seq<Payload>
  {
    if d == [] then []
    else (if d[0].handle == h then [d[0].payload] else []) + Seen(d[1..], h)
  }

  lemma {:induction false} SeenAppend(d1: seq<Notification>, d2: seq<Notification>, h: Handle)
    ensures Seen(d1 + d2, h) == Seen(d1, h) + Seen(d2, h)
    decreases |d1|
  {
    if d1 == [] {
      assert d1 + d2 == d2;
    } else {
      assert (d1 + d2)[1..] == d1[1..] + d2;
      SeenAppend(d1[1..], d2, h);
    }
  }

  /** When every call in `d` is to `h`, `h` sees every value of `d`, in order. */
  lemma {:induction false} SeenOnly(d: seq<Notification>, h: Handle)
    requires forall i | 0 <= i < |d| :: d[i].handle == h
    ensures |Seen(d, h)| == |d|
    ensures forall i | 0 <= i < |d| :: Seen(d, h)[i] == d[i].payload
    decreases |d|
  {
    if d != [] {
      SeenOnly(d[1..], h);
      assert Seen(d, h) == [d[0].payload] + Seen(d[1..], h);
    }
  }

  /** A fan-out reaches `h` exactly once if `h` is in the set, and not at all otherwise. */
  lemma {:induction false} SeenFanOut(d: seq<Notification>, hs: set<Handle>, p: Payload, h: Handle)
    requires FanOut(d, hs, p)
    ensures Seen(d, h) == if h in hs then [p] else []
    decreases |d|
  {
    if d != [] {
      var rest := d[1..];
      var hs' := hs - {d[0].handle};
      assert Recipients(rest) == hs' by {
        forall x | x in Recipients(rest) ensures x in hs' {
          var n :| n in rest && n.handle == x;
          var j :| 0 <= j < |rest| && rest[j] == n;
          assert d[j + 1] == n;
        }
        forall x | x in hs' ensures x in Recipients(rest) {
          var n :| n in d && n.handle == x;
          var j :| 0 <= j < |d| && d[j] == n;
          assert j != 0;
          assert rest[j - 1] == n;
        }
      }
      assert |hs'| == |hs| - 1;
      SeenFanOut(rest, hs', p, h);
      assert d[0] in d;
    } else {
      assert hs == {};
    }
  }

  /** The broadcasts of `sent` that reach `h`: those of a kind whose listener set in `reg` holds `h`. */
  function Filter(sent: seq<Payload>, reg: Registry, h: Handle): (r: seq<Payload>)
    ensures |r| <= |sent|
    ensures forall p | p in r :: p in sent && h in reg.Listeners(p.Kind())
    decreases |sent|
  {
    if sent == [] then []
    else (if h in reg.Listeners(sent[0].Kind()) then [sent[0]] else []) + Filter(sent[1..], reg, h)
  }

  /** Any listener sees exactly the broadcasts of the kinds it is registered for, in order. */
  lemma {:induction false} SeenFiltered(d: seq<Notification>, sent: seq<Payload>, reg: Registry, h: Handle)
    requires Delivered(d, sent, reg)
    ensures Seen(d, h) == Filter(sent, reg, h)
    decreases |sent|
  {
    if sent != [] {
      var hs := reg.Listeners(sent[0].Kind());
      assert d == d[..|hs|] + d[|hs|..];
      SeenAppend(d[..|hs|], d[|hs|..], h);
      SeenFanOut(d[..|hs|], hs, sent[0], h);
      SeenFiltered(d[|hs|..], sent[1..], reg, h);
    }
  }

  /** A listener in every set sees exactly the broadcast values, in order. */
  lemma {:induction false} SeenDelivered(d: seq<Notification>, sent: seq<Payload>, reg: Registry, h: Handle)
    requires Delivered(d, sent, reg)
    requires h in reg.state && h in reg.accountInfo && h in reg.error && h in reg.init
    ensures Seen(d, h) == sent
    decreases |sent|
  {
    if sent != [] {
      var hs := reg.Listeners(sent[0].Kind());
      assert d == d[..|hs|] + d[|hs|..];
      SeenAppend(d[..|hs|], d[|hs|..], h);
      SeenFanOut(d[..|hs|], hs, sent[0], h);
      SeenDelivered(d[|hs|..], sent[1..], reg, h);
      assert sent == [sent[0]] + sent[1..];
    }
  }
}
