/** The information items of the personal page (`sector/self/self.js`,
    the `DOMContentLoaded` handler): clicking an item opens its detail,
    closing the detail reveals the items clicked meanwhile, and the blur of
    the background falls as more types are revealed. */
module InfoPanel {
  import opened Common

  /** The `data-type` of a detail: one per information item. */
  datatype InfoType = Role | Location | Focus | Status

  /** `types`: the detail type of each information item, in page order. */
  const ItemTypes: seq<InfoType> := [Role, Location, Focus, Status]

  /** `types[index]`: the type of item `index`, or none past the end of the
      list, where the lookup yields `undefined` and no source matches. */
  function TypeOf(index: nat): (t: Option<InfoType>)
    ensures t.Some? <==> index < |ItemTypes|
    ensures t.Some? ==> t.value == ItemTypes[index]
    ensures t.Some? ==> forall j :: 0 <= j < |ItemTypes| && ItemTypes[j] == t.value ==> j == index
  {
    if index < |ItemTypes| then Some(ItemTypes[index]) else None
  }

  /** Every type belongs to exactly one item, so four distinct clicked types
      are the four items' types. */
  lemma {:induction false} EveryTypeOneItem(k: InfoType)
    ensures exists i :: 0 <= i < |ItemTypes| && TypeOf(i) == Some(k)
    ensures forall i, j :: 0 <= i < |ItemTypes| && 0 <= j < |ItemTypes| && TypeOf(i) == Some(k) && TypeOf(j) == Some(k) ==> i == j
  {
    match k
    case Role => assert TypeOf(0) == Some(Role);
    case Location => assert TypeOf(1) == Some(Location);
    case Focus => assert TypeOf(2) == Some(Focus);
    case Status => assert TypeOf(3) == Some(Status);
  }

  /** `maxBgBlur` = 12. */
  const MaxBlur: real := 12.0

  /** `updateBackgroundBlur`: the blur in pixels after `clicked` types have
      been revealed, `12 * max(0, 4 - clicked) / 4`. It starts at 12 and
      reaches 0 once all four types have been revealed. */
  function BlurFor(clicked: nat): (b: real)
    ensures 0.0 <= b <= MaxBlur
    ensures clicked == 0 ==> b == MaxBlur
    ensures clicked >= |ItemTypes| ==> b == 0.0
  {
    var remaining := if clicked < |ItemTypes| then |ItemTypes| - clicked else 0;
    MaxBlur * ((remaining as real) / (|ItemTypes| as real))
  }

  /** Each further revealed type lowers the blur until none is left. */
  lemma BlurDecreasing(m: nat, n: nat)
    requires m <= n
    ensures BlurFor(n) <= BlurFor(m)
    ensures m < n && m < |ItemTypes| ==> BlurFor(n) < BlurFor(m)
  {
  }

  /** An entry of `pendingReveals`: the type and the item to reveal. */
  datatype Reveal = Reveal(kind: InfoType, item: nat)

  /** `pendingReveals.some(entry => entry.item === item)`. */
  function Queued(q: seq<Reveal>, item: nat): (b: bool)
    ensures b <==> exists k :: 0 <= k < |q| && q[k].item == item
  {
    if q == [] then false else q[0].item == item || Queued(q[1..], item)
  }

  /** The types of the entries of `q`. */
  ghost function KindsOf(q: seq<Reveal>): set<InfoType>
  {
    if q == [] then {} else KindsOf(q[..|q| - 1]) + {q[|q| - 1].kind}
  }

  /** The items of the entries of `q`. */
  ghost function ItemsOf(q: seq<Reveal>): set<nat>
  {
    if q == [] then {} else ItemsOf(q[..|q| - 1]) + {q[|q| - 1].item}
  }

  /** Draining one more entry of `q` adds its type and item. */
  lemma Drained(q: seq<Reveal>, n: nat)
    requires n < |q|
    ensures KindsOf(q[..n + 1]) == KindsOf(q[..n]) + {q[n].kind}
    ensures ItemsOf(q[..n + 1]) == ItemsOf(q[..n]) + {q[n].item}
  {
    assert q[..n + 1][..n] == q[..n];
  }

  /** `KindsOf(q)` holds exactly the types that occur in `q`. */
  lemma {:induction false} KindsOfMembers(q: seq<Reveal>)
    ensures forall k :: k in KindsOf(q) <==> exists i :: 0 <= i < |q| && q[i].kind == k
  {
    if q != [] {
      var p := q[..|q| - 1];
      KindsOfMembers(p);
      assert KindsOf(q) == KindsOf(p) + {q[|q| - 1].kind};
      forall k | k in KindsOf(q)
        ensures exists i :: 0 <= i < |q| && q[i].kind == k
      {
        if k != q[|q| - 1].kind {
          var i :| 0 <= i < |p| && p[i].kind == k;
          assert q[i] == p[i];
        }
      }
      forall k, i | 0 <= i < |q| && q[i].kind == k
        ensures k in KindsOf(q)
      {
        if i < |p| {
          assert p[i] == q[i];
        }
      }
    }
  }

  /** `ItemsOf(q)` holds exactly the items that occur in `q`. */
  lemma {:induction false} ItemsOfMembers(q: seq<Reveal>)
    ensures forall x :: x in ItemsOf(q) <==> exists i :: 0 <= i < |q| && q[i].item == x
  {
    if q != [] {
      var p := q[..|q| - 1];
      ItemsOfMembers(p);
      assert ItemsOf(q) == ItemsOf(p) + {q[|q| - 1].item};
      forall x | x in ItemsOf(q)
        ensures exists i :: 0 <= i < |q| && q[i].item == x
      {
        if x != q[|q| - 1].item {
          var i :| 0 <= i < |p| && p[i].item == x;
          assert q[i] == p[i];
        }
      }
      forall x, i | 0 <= i < |q| && q[i].item == x
        ensures x in ItemsOf(q)
      {
        if i < |p| {
          assert p[i] == q[i];
        }
      }
    }
  }

  /** Every queued entry is an item of the page with its own type that is
      not revealed yet, and no item is queued twice. */
  ghost predicate QueueSound(q: seq<Reveal>, revealed: set<nat>)
  {
    && (forall k :: 0 <= k < |q| ==>
          q[k].item < |ItemTypes| && q[k].kind == ItemTypes[q[k].item] && q[k].item !in revealed)
    && (forall k, l :: 0 <= k < l < |q| ==> q[k].item != q[l].item)
  }

  /** Every revealed item is an item of the page whose type counts as
      clicked. */
  ghost predicate RevealedClicked(revealed: set<nat>, clicked: set<InfoType>)
  {
    forall i :: i in revealed ==> i < |ItemTypes| && ItemTypes[i] in clicked
  }

  /** Revealing the head of a sound queue leaves a sound tail. */
  lemma RevealHead(q: seq<Reveal>, revealed: set<nat>, clicked: set<InfoType>)
    requires |q| > 0 && QueueSound(q, revealed) && RevealedClicked(revealed, clicked)
    ensures QueueSound(q[1..], revealed + {q[0].item})
    ensures RevealedClicked(revealed + {q[0].item}, clicked + {q[0].kind})
  {
    forall k | 0 <= k < |q| - 1
      ensures q[1..][k].item != q[0].item
    {
      assert q[1..][k] == q[k + 1];
    }
  }

  /** Queueing an item that is neither revealed nor queued keeps the queue
      sound. */
  lemma EnqueueSound(q: seq<Reveal>, revealed: set<nat>, index: nat)
    requires QueueSound(q, revealed)
    requires index < |ItemTypes| && index !in revealed && !Queued(q, index)
    ensures QueueSound(q + [Reveal(ItemTypes[index], index)], revealed)
  {
    var q' := q + [Reveal(ItemTypes[index], index)];
    assert forall k :: 0 <= k < |q| ==> q'[k] == q[k];
  }

  /** The detail overlay and the reveal queue of the information items. Items
      are numbered 0 to 3 in page order; `revealed` holds those whose
      `revealed` class is set. The two timers of `hideDetail` are counted:
      `armedClears` and `armedReveals` are the timers scheduled and not yet
      fired or cancelled, and `clearHandle` and `revealHandle` say whether
      `clearContentTimer` and `pendingRevealTimer` hold a handle. */
  class RevealPanel {
    /** The markup of `#detail-sources`' children, by `data-type`. */
    var sources: map<InfoType, string>
    /** The markup of `#detail-content`. */
    var content: string
    var overlayActive: bool
    var pendingReveals: seq<Reveal>
    var clickedTypes: set<InfoType>
    var revealed: set<nat>
    /** The value of `--bg-blur`, in pixels. */
    var blur: real
    var armedClears: nat
    var clearHandle: bool
    var armedReveals: nat
    var revealHandle: bool

    /** The blur follows the clicked types; the queue is sound; every
        revealed item's type counts as clicked; a held timer handle belongs
        to a scheduled timer. */
    ghost predicate Valid()
      reads this
    {
      && blur == BlurFor(|clickedTypes|)
      && QueueSound(pendingReveals, revealed)
      && RevealedClicked(revealed, clickedTypes)
      && (clearHandle ==> armedClears > 0)
      && (revealHandle ==> armedReveals > 0)
    }

    /** The page after `DOMContentLoaded`: nothing revealed, the overlay
        closed, and `updateBackgroundBlur` has set the full blur. */
    constructor (detailSources: map<InfoType, string>)
      ensures Valid() && sources == detailSources
      ensures content == "" && !overlayActive && pendingReveals == []
      ensures clickedTypes == {} && revealed == {} && blur == MaxBlur
      ensures armedClears == 0 && !clearHandle && armedReveals == 0 && !revealHandle
    {
      sources := detailSources;
      content := "";
      overlayActive := false;
      pendingReveals := [];
      clickedTypes := {};
      revealed := {};
      blur := BlurFor(0);
      armedClears, clearHandle := 0, false;
      armedReveals, revealHandle := 0, false;
    }

    /** A click on item `index`, which calls `showDetail(types[index], item)`:
        the timers whose handles are held are cancelled; if the type has a
        source, the overlay opens with its markup and the item, unless it is
        revealed or already queued, joins the queue. */
    method ShowDetail(index: nat)
      requires Valid()
      modifies this
      ensures Valid()
      ensures !clearHandle && !revealHandle
      ensures armedClears == old(armedClears) - (if old(clearHandle) then 1 else 0)
      ensures armedReveals == old(armedReveals) - (if old(revealHandle) then 1 else 0)
      ensures var t := TypeOf(index);
              var shown := t.Some? && t.value in sources;
              && (shown ==> content == sources[t.value] && overlayActive)
              && (!shown ==> content == old(content) && overlayActive == old(overlayActive))
              && pendingReveals == (if shown && index !in revealed && !Queued(old(pendingReveals), index)
                                    then old(pendingReveals) + [Reveal(t.value, index)]
                                    else old(pendingReveals))
      ensures sources == old(sources) && clickedTypes == old(clickedTypes)
      ensures revealed == old(revealed) && blur == old(blur)
    {
      CancelTimers();
      var t := TypeOf(index);
      if t.Some? && t.value in sources {
        content := sources[t.value];
        overlayActive := true;
        if index !in revealed && !Queued(pendingReveals, index) {
          EnqueueSound(pendingReveals, revealed, index);
          pendingReveals := pendingReveals + [Reveal(t.value, index)];
        }
      }
    }

    /** `clearTimeout` on each timer whose handle is held, dropping the
        handle; nothing else changes. */
    method CancelTimers()
      requires Valid()
      modifies this
      ensures Valid() && !clearHandle && !revealHandle
      ensures armedClears == old(armedClears) - (if old(clearHandle) then 1 else 0)
      ensures armedReveals == old(armedReveals) - (if old(revealHandle) then 1 else 0)
      ensures content == old(content) && overlayActive == old(overlayActive)
      ensures pendingReveals == old(pendingReveals) && sources == old(sources)
      ensures clickedTypes == old(clickedTypes) && revealed == old(revealed) && blur == old(blur)
    {
      if clearHandle {
        armedClears, clearHandle := armedClears - 1, false;
      }
      if revealHandle {
        armedReveals, revealHandle := armedReveals - 1, false;
      }
    }

    /** `hideDetail`: the overlay closes and both timers are scheduled, each
        new handle replacing the one held before. */
    method HideDetail()
      requires Valid()
      modifies this
      ensures Valid() && !overlayActive
      ensures armedClears == old(armedClears) + 1 && clearHandle
      ensures armedReveals == old(armedReveals) + 1 && revealHandle
      ensures content == old(content) && pendingReveals == old(pendingReveals)
      ensures sources == old(sources) && clickedTypes == old(clickedTypes)
      ensures revealed == old(revealed) && blur == old(blur)
    {
      overlayActive := false;
      armedClears, clearHandle := armedClears + 1, true;
      armedReveals, revealHandle := armedReveals + 1, true;
    }

    /** One of the content-clearing timers fires after 500 ms. */
    method ClearTimerFires()
      requires Valid() && armedClears > 0
      modifies this
      ensures Valid() && content == "" && !clearHandle
      ensures armedClears == old(armedClears) - 1
      ensures overlayActive == old(overlayActive) && pendingReveals == old(pendingReveals)
      ensures armedReveals == old(armedReveals) && revealHandle == old(revealHandle)
      ensures sources == old(sources) && clickedTypes == old(clickedTypes)
      ensures revealed == old(revealed) && blur == old(blur)
    {
      content := "";
      armedClears, clearHandle := armedClears - 1, false;
    }

    /** `revealItem(type, item)`: whichever branch it takes, afterwards the
        item is revealed, its type counts as clicked and the blur matches. */
    method RevealItem(kind: InfoType, item: nat)
      modifies this
      ensures clickedTypes == old(clickedTypes) + {kind}
      ensures revealed == old(revealed) + {item}
      ensures blur == (if kind in old(clickedTypes) && item in old(revealed) then old(blur)
                       else BlurFor(|clickedTypes|))
      ensures content == old(content) && overlayActive == old(overlayActive)
      ensures pendingReveals == old(pendingReveals) && sources == old(sources)
      ensures armedClears == old(armedClears) && clearHandle == old(clearHandle)
      ensures armedReveals == old(armedReveals) && revealHandle == old(revealHandle)
    {
      if kind !in clickedTypes && item in revealed {
        clickedTypes := clickedTypes + {kind};
        blur := BlurFor(|clickedTypes|);
        return;
      }
      if item in revealed {
        return;
      }
      revealed := revealed + {item};
      clickedTypes := clickedTypes + {kind};
      blur := BlurFor(|clickedTypes|);
    }

    /** One turn of the drain loop: `pendingReveals.shift()` and
        `revealItem` on the entry, which is returned. */
    method RevealNext() returns (next: Reveal)
      requires Valid() && |pendingReveals| > 0
      modifies this
      ensures Valid() && next == old(pendingReveals[0])
      ensures pendingReveals == old(pendingReveals[1..])
      ensures clickedTypes == old(clickedTypes) + {next.kind}
      ensures revealed == old(revealed) + {next.item}
      ensures content == old(content) && overlayActive == old(overlayActive) && sources == old(sources)
      ensures armedClears == old(armedClears) && clearHandle == old(clearHandle)
      ensures armedReveals == old(armedReveals) && revealHandle == old(revealHandle)
    {
      next := pendingReveals[0];
      RevealHead(pendingReveals, revealed, clickedTypes);
      pendingReveals := pendingReveals[1..];
      RevealItem(next.kind, next.item);
    }

    /** The callback of the reveal timer, 650 ms after `hideDetail`: the
        queue is drained and the handle is dropped. */
    method RevealTimerFires()
      requires Valid() && armedReveals > 0
      modifies this
      ensures Valid() && pendingReveals == [] && !revealHandle
      ensures armedReveals == old(armedReveals) - 1
      ensures clickedTypes == old(clickedTypes) + KindsOf(old(pendingReveals))
      ensures revealed == old(revealed) + ItemsOf(old(pendingReveals))
      ensures content == old(content) && overlayActive == old(overlayActive)
      ensures sources == old(sources)
      ensures armedClears == old(armedClears) && clearHandle == old(clearHandle)
    {
      DrainQueue();
      armedReveals, revealHandle := armedReveals - 1, false;
    }

    /** `while (pendingReveals.length) revealItem(...shift())`: every queued
        entry is revealed in order and the queue ends empty. */
    method DrainQueue()
      requires Valid()
      modifies this
      ensures Valid() && pendingReveals == []
      ensures clickedTypes == old(clickedTypes) + KindsOf(old(pendingReveals))
      ensures revealed == old(revealed) + ItemsOf(old(pendingReveals))
      ensures content == old(content) && overlayActive == old(overlayActive)
      ensures sources == old(sources)
      ensures armedReveals == old(armedReveals) && revealHandle == old(revealHandle)
      ensures armedClears == old(armedClears) && clearHandle == old(clearHandle)
    {
      ghost var q0, c0, r0 := pendingReveals, clickedTypes, revealed;
      ghost var n := 0;
      while |pendingReveals| > 0
        invariant Valid() && 0 <= n <= |q0| && pendingReveals == q0[n..]
        invariant clickedTypes == c0 + KindsOf(q0[..n])
        invariant revealed == r0 + ItemsOf(q0[..n])
        invariant content == old(content) && overlayActive == old(overlayActive)
        invariant sources == old(sources)
        invariant armedReveals == old(armedReveals) && revealHandle == old(revealHandle)
        invariant armedClears == old(armedClears) && clearHandle == old(clearHandle)
        decreases |pendingReveals|
      {
        var next := RevealNext();
        Drained(q0, n);
        n := n + 1;
      }
      assert q0[..n] == q0;
    }

    /** Once every item is revealed, the background is sharp. */
    lemma AllRevealedClearsBlur()
      requires Valid()
      requires forall i :: 0 <= i < |ItemTypes| ==> i in revealed
      ensures blur == 0.0
    {
      assert 0 in revealed && 1 in revealed && 2 in revealed && 3 in revealed;
      assert {Role, Location, Focus, Status} <= clickedTypes;
      SubsetSize({Role, Location, Focus, Status}, clickedTypes);
    }
  }

  lemma SubsetSize<T>(a: set<T>, b: set<T>)
    requires a <= b
    ensures |a| <= |b|
  {
    assert b == a + (b - a);
  }
}
