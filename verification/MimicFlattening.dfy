/** Rewriting chains of mimic joints in a robot description so that every mimic follows an actuated
    joint directly. */
module MimicFlattening {
  import opened Numbers

  /** `value = mult * value(target) + off`. */
  datatype Link = Link(target: string, mult: real, off: real)

  datatype Joint = Joint(name: string, kind: Option<string>, mimic: Option<Link>)

  /** A dictionary entry: the link, and the element it was read from. */
  datatype Entry = Entry(link: Link, index: nat)

  /** The mimic dictionary of the joints; of several mimic joints with one name the last counts. */
  function Entries(joints: seq<Joint>): map<string, Entry> {
    if joints == [] then map[]
    else
      var k := |joints| - 1;
      if joints[k].mimic.Some? then Entries(joints[..k])[joints[k].name := Entry(joints[k].mimic.value, k)]
      else Entries(joints[..k])
  }

  predicate Drives(j: Joint) { j.mimic.None? && j.kind.Some? && j.kind.value != "fixed" }

  function Actuated(joints: seq<Joint>): set<string> { set j | j in joints && Drives(j) :: j.name }

  const MAX_DEPTH := 8

  /** `a` followed by `b`: if x = a(y) and y = b(z), then x = Compose(a, b)(z). */
  function Compose(a: Link, b: Link): Link { Link(b.target, a.mult * b.mult, a.mult * b.off + a.off) }

  /** Follows a link through the dictionary, at most MAX_DEPTH entries deep. */
  function Chase(mimics: map<string, Entry>, link: Link, depth: nat): Link
    decreases MAX_DEPTH - depth
  {
    if link.target in mimics && depth < MAX_DEPTH
    then Chase(mimics, Compose(link, mimics[link.target].link), depth + 1)
    else link
  }

  function Rewritten(mimics: map<string, Entry>, actuated: set<string>, j: Joint, e: Entry): Joint {
    var link := Chase(mimics, e.link, 0);
    if link.target in actuated then j.(mimic := Some(link)) else j
  }

  predicate IsEntry(mimics: map<string, Entry>, j: Joint, i: nat) { j.name in mimics && mimics[j.name].index == i }

  function Flattened(joints: seq<Joint>): seq<Joint> {
    var mimics, actuated := Entries(joints), Actuated(joints);
    seq(|joints|, i requires 0 <= i < |joints| =>
      if IsEntry(mimics, joints[i], i) then Rewritten(mimics, actuated, joints[i], mimics[joints[i].name])
      else joints[i])
  }

  lemma {:induction false} EntryIndex(joints: seq<Joint>, name: string)
    requires name in Entries(joints)
    ensures var e := Entries(joints)[name];
      e.index < |joints| && joints[e.index].name == name && joints[e.index].mimic == Some(e.link)
  {
    var k := |joints| - 1;
    if !(joints[k].mimic.Some? && joints[k].name == name) { EntryIndex(joints[..k], name); }
  }

  /** Follows one link. */
  method Resolve(mimics: map<string, Entry>, start: Link) returns (link: Link)
    ensures link == Chase(mimics, start, 0)
  {
    var target, mult, off := start.target, start.mult, start.off;
    var depth := 0;
    while target in mimics && depth < MAX_DEPTH
      invariant depth <= MAX_DEPTH
      invariant Chase(mimics, Link(target, mult, off), depth) == Chase(mimics, start, 0)
      decreases MAX_DEPTH - depth
    {
      var next := mimics[target].link;
      assert Compose(Link(target, mult, off), next) == Link(next.target, mult * next.mult, mult * next.off + off);
      mult, off, target := mult * next.mult, mult * next.off + off, next.target;
      depth := depth + 1;
    }
    link := Link(target, mult, off);
  }

  /** Rewrites the mimic elements in place. */
  method FlattenMimics(joints: array<Joint>)
    modifies joints
    ensures joints[..] == Flattened(old(joints[..]))
  {
    hide Chase;
    ghost var was := joints[..];
    var mimics, keys, actuated := CollectJoints(joints);
    for k := 0 to |keys|
      invariant joints.Length == |was|
      invariant forall i | 0 <= i < |was| ::
        joints[i] == (if IsEntry(mimics, was[i], i) && was[i].name in keys[..k]
                      then Rewritten(mimics, actuated, was[i], mimics[was[i].name]) else was[i])
    {
      var name := keys[k];
      assert name in keys;
      var e := mimics[name];
      EntryIndex(was, name);
      var link := Resolve(mimics, e.link);
      assert keys[..k + 1] == keys[..k] + [name];
      if link.target in actuated {
        joints[e.index] := joints[e.index].(mimic := Some(link));
      }
    }
    assert keys[..|keys|] == keys;
  }

  /** The dictionary with its keys in insertion order, and the actuated names. */
  method CollectJoints(joints: array<Joint>)
    returns (mimics: map<string, Entry>, keys: seq<string>, actuated: set<string>)
    ensures mimics == Entries(joints[..]) && actuated == Actuated(joints[..])
    ensures (forall name :: name in keys <==> name in mimics)
    ensures forall a, b | 0 <= a < b < |keys| :: keys[a] != keys[b]
  {
    mimics, keys, actuated := map[], [], {};
    for i := 0 to joints.Length
      invariant mimics == Entries(joints[..i]) && actuated == Actuated(joints[..i])
      invariant (forall name :: name in keys <==> name in mimics)
      invariant forall a, b | 0 <= a < b < |keys| :: keys[a] != keys[b]
    {
      assert joints[..i + 1] == joints[..i] + [joints[i]] && joints[..i + 1][..i] == joints[..i];
      var j := joints[i];
      if j.mimic.Some? {
        if j.name !in mimics {
          keys := keys + [j.name];
        }
        mimics := mimics[j.name := Entry(j.mimic.value, i)];
      } else if j.kind.Some? && j.kind.value != "fixed" {
        actuated := actuated + {j.name};
      }
    }
    assert joints[..joints.Length] == joints[..];
  }

  // What the rewriting means.

  predicate Distinct(joints: seq<Joint>) {
    forall i, j | 0 <= i < j < |joints| :: joints[i].name != joints[j].name
  }

  function Follow(v: string -> real, l: Link): real { l.mult * v(l.target) + l.off }

  /** A joint configuration obeys every mimic equation. */
  predicate Obeys(v: string -> real, joints: seq<Joint>) {
    forall i | 0 <= i < |joints| && joints[i].mimic.Some? :: v(joints[i].name) == Follow(v, joints[i].mimic.value)
  }

  lemma {:induction false} DistinctEntries(joints: seq<Joint>, i: nat)
    requires Distinct(joints) && i < |joints|
    ensures joints[i].mimic.Some? ==>
      joints[i].name in Entries(joints) && Entries(joints)[joints[i].name] == Entry(joints[i].mimic.value, i)
    ensures joints[i].mimic.None? ==> joints[i].name !in Entries(joints)
    decreases |joints|
  {
    var k := |joints| - 1;
    if i < k {
      DistinctEntries(joints[..k], i);
    } else if joints[k].mimic.None? && joints[k].name in Entries(joints) {
      EntryIndex(joints, joints[k].name);
    }
  }

  lemma ActuatedIsNoMimic(joints: seq<Joint>, name: string)
    requires Distinct(joints) && name in Actuated(joints)
    ensures name !in Entries(joints)
  {
    var j :| j in joints && Drives(j) && j.name == name;
    var i :| 0 <= i < |joints| && joints[i] == j;
    DistinctEntries(joints, i);
  }

  lemma Distribute(a: real, z: real, y: real)
    ensures a * (z + y) == a * z + a * y
  {}

  lemma Reassociate(a: real, b: real, x: real)
    ensures a * (b * x) == a * b * x
  {}

  lemma ThroughTwo(a: real, b: real, x: real, y: real)
    ensures a * (b * x + y) == a * b * x + a * y
  {
    Distribute(a, b * x, y);
    Reassociate(a, b, x);
  }

  lemma ComposeAssociates(a: Link, b: Link, c: Link)
    ensures Compose(Compose(a, b), c) == Compose(a, Compose(b, c))
  {
    Reassociate(a.mult, b.mult, c.mult);
    ThroughTwo(a.mult, b.mult, c.off, b.off);
  }

  lemma FollowCompose(v: string -> real, a: Link, b: Link)
    requires v(a.target) == Follow(v, b)
    ensures Follow(v, Compose(a, b)) == Follow(v, a)
  {
    ThroughTwo(a.mult, b.mult, v(b.target), b.off);
  }

  /** Chasing from the middle of a chain and then composing is chasing from its start. */
  lemma {:induction false} ChaseCompose(mimics: map<string, Entry>, a: Link, b: Link, depth: nat)
    ensures Chase(mimics, Compose(a, b), depth) == Compose(a, Chase(mimics, b, depth))
    decreases MAX_DEPTH - depth
  {
    if b.target in mimics && depth < MAX_DEPTH {
      var c := mimics[b.target].link;
      ComposeAssociates(a, b, c);
      ChaseCompose(mimics, a, Compose(b, c), depth + 1);
    }
  }

  /** A chase that ended outside the dictionary would end there with more depth to go. */
  lemma {:induction false} ChaseEarlier(mimics: map<string, Entry>, link: Link, depth: nat)
    requires Chase(mimics, link, depth + 1).target !in mimics
    ensures Chase(mimics, link, depth) == Chase(mimics, link, depth + 1)
    decreases MAX_DEPTH - depth
  {
    if link.target in mimics && depth < MAX_DEPTH {
      ChaseEarlier(mimics, Compose(link, mimics[link.target].link), depth + 1);
    }
  }

  lemma {:induction false} ChaseObeys(joints: seq<Joint>, v: string -> real, link: Link, depth: nat)
    requires Obeys(v, joints)
    ensures Follow(v, Chase(Entries(joints), link, depth)) == Follow(v, link)
    decreases MAX_DEPTH - depth
  {
    hide Entries;
    var mimics := Entries(joints);
    if link.target in mimics && depth < MAX_DEPTH {
      EntryIndex(joints, link.target);
      FollowCompose(v, link, mimics[link.target].link);
      ChaseObeys(joints, v, Compose(link, mimics[link.target].link), depth + 1);
    }
  }

  lemma FlattenedAt(joints: seq<Joint>, i: nat)
    requires Distinct(joints) && i < |joints|
    ensures Flattened(joints)[i].name == joints[i].name
    ensures joints[i].mimic.None? ==> Flattened(joints)[i] == joints[i]
    ensures joints[i].mimic.Some? ==>
      var link := Chase(Entries(joints), joints[i].mimic.value, 0);
      Flattened(joints)[i] == if link.target in Actuated(joints) then joints[i].(mimic := Some(link)) else joints[i]
  {
    hide Entries, Chase, Actuated;
    DistinctEntries(joints, i);
  }

  /** The rewritten equation of a joint gives back its original one, once the joint it used to
      follow obeys its own rewritten equation. */
  lemma OriginalObeyed(joints: seq<Joint>, v: string -> real, i: nat)
    requires Distinct(joints) && i < |joints| && joints[i].mimic.Some? && Obeys(v, Flattened(joints))
    ensures v(joints[i].name) == Follow(v, joints[i].mimic.value)
  {
    hide Entries, Chase, Flattened, Actuated;
    var mimics, link := Entries(joints), joints[i].mimic.value;
    FlattenedAt(joints, i);
    assert |Flattened(joints)| == |joints| by { FlattenedLength(joints); }
    if Chase(mimics, link, 0).target in Actuated(joints) && link.target in mimics {
      EntryIndex(joints, link.target);
      var t := mimics[link.target].index;
      var next := mimics[link.target].link;
      ActuatedIsNoMimic(joints, Chase(mimics, link, 0).target);
      ChaseOnce(mimics, link, next);
      FlattenedAt(joints, t);
      FollowCompose(v, link, Chase(mimics, next, 0));
    } else if link.target !in mimics {
      ChaseStays(mimics, link);
    }
  }

  lemma FlattenedLength(joints: seq<Joint>)
    ensures |Flattened(joints)| == |joints|
  {}

  lemma ChaseStays(mimics: map<string, Entry>, link: Link)
    requires link.target !in mimics
    ensures Chase(mimics, link, 0) == link
  {}

  lemma ChaseOnce(mimics: map<string, Entry>, link: Link, next: Link)
    requires link.target in mimics && mimics[link.target].link == next && Chase(mimics, link, 0).target !in mimics
    ensures Chase(mimics, link, 0) == Compose(link, Chase(mimics, next, 0))
  {
    assert Chase(mimics, link, 0) == Chase(mimics, Compose(link, next), 1);
    ChaseCompose(mimics, link, next, 1);
    ChaseEarlier(mimics, next, 0);
  }

  /** Flattening preserves the meaning of the description: with distinct joint names exactly the same
      configurations obey the mimic equations before and after. */
  lemma FlatteningPreservesMeaning(joints: seq<Joint>, v: string -> real)
    requires Distinct(joints)
    ensures Obeys(v, joints) <==> Obeys(v, Flattened(joints))
  {
    hide Entries, Chase, Flattened, Actuated;
    FlattenedLength(joints);
    if Obeys(v, joints) {
      forall i | 0 <= i < |joints| && Flattened(joints)[i].mimic.Some?
        ensures v(Flattened(joints)[i].name) == Follow(v, Flattened(joints)[i].mimic.value)
      {
        FlattenedAt(joints, i);
        ChaseObeys(joints, v, joints[i].mimic.value, 0);
      }
    }
    if Obeys(v, Flattened(joints)) {
      forall i | 0 <= i < |joints| && joints[i].mimic.Some?
        ensures v(joints[i].name) == Follow(v, joints[i].mimic.value)
      {
        OriginalObeyed(joints, v, i);
      }
    }
  }

  // Which joints are rewritten.

  /** Following the chain from a target reaches `end` within `n` more links. */
  predicate Within(mimics: map<string, Entry>, target: string, end: string, n: nat)
    decreases n
  {
    target == end || (n > 0 && target in mimics && Within(mimics, mimics[target].link.target, end, n - 1))
  }

  lemma {:induction false} ChaseReaches(mimics: map<string, Entry>, link: Link, depth: nat, end: string)
    requires end !in mimics && depth <= MAX_DEPTH
    ensures Chase(mimics, link, depth).target == end <==> Within(mimics, link.target, end, MAX_DEPTH - depth)
    decreases MAX_DEPTH - depth
  {
    if link.target in mimics && depth < MAX_DEPTH {
      ChaseReaches(mimics, Compose(link, mimics[link.target].link), depth + 1, end);
    }
  }

  /** The joint of that name mimics nothing and moves. */
  predicate Driven(joints: seq<Joint>, name: string) {
    exists k | 0 <= k < |joints| ::
      joints[k].name == name && joints[k].mimic.None? && joints[k].kind.Some? && joints[k].kind.value != "fixed"
  }

  /** From a joint name the mimic elements lead to `end` within `n` of them. */
  predicate Leads(joints: seq<Joint>, from: string, end: string, n: nat)
    decreases n
  {
    from == end
    || (n > 0 && exists k | 0 <= k < |joints| ::
          joints[k].name == from && joints[k].mimic.Some? && Leads(joints, joints[k].mimic.value.target, end, n - 1))
  }

  lemma {:induction false} LeadsMeans(joints: seq<Joint>, from: string, end: string, n: nat)
    requires Distinct(joints)
    ensures Leads(joints, from, end, n) <==> Within(Entries(joints), from, end, n)
    decreases n
  {
    hide Entries;
    if n > 0 {
      forall k | 0 <= k < |joints| && joints[k].name == from && joints[k].mimic.Some?
        ensures from in Entries(joints) && Entries(joints)[from].link == joints[k].mimic.value
        ensures Leads(joints, joints[k].mimic.value.target, end, n - 1)
           <==> Within(Entries(joints), joints[k].mimic.value.target, end, n - 1)
      {
        DistinctEntries(joints, k);
        LeadsMeans(joints, joints[k].mimic.value.target, end, n - 1);
      }
      if from in Entries(joints) {
        EntryIndex(joints, from);
        var k := Entries(joints)[from].index;
        assert joints[k].name == from && joints[k].mimic == Some(Entries(joints)[from].link);
      }
    }
  }

  /** The chain of a mimic joint reaches `end` in at most nine links, its own one included. */
  predicate ReachesInNine(joints: seq<Joint>, i: nat, end: string)
    requires i < |joints| && joints[i].mimic.Some?
  {
    Leads(joints, joints[i].mimic.value.target, end, 8)
  }

  /** A mimic joint becomes a direct mimic of a driven joint exactly when its chain reaches that joint in
      at most nine links. */
  lemma ShortChainsAreFlattened(joints: seq<Joint>, i: nat, end: string)
    requires Distinct(joints) && i < |joints| && joints[i].mimic.Some? && Driven(joints, end)
    ensures ReachesInNine(joints, i, end)
       <==> Flattened(joints)[i].mimic.Some? && Flattened(joints)[i].mimic.value.target == end
  {
    DrivenIsActuated(joints, end);
    hide Entries, Chase, Flattened, Actuated, Driven, Leads, Within;
    FlattenedAt(joints, i);
    ActuatedIsNoMimic(joints, end);
    LeadsMeans(joints, joints[i].mimic.value.target, end, 8);
    ChaseReaches(Entries(joints), joints[i].mimic.value, 0, end);
    if joints[i].mimic.value.target == end { ChaseStays(Entries(joints), joints[i].mimic.value); }
  }

  lemma DrivenIsActuated(joints: seq<Joint>, name: string)
    ensures Driven(joints, name) <==> name in Actuated(joints)
  {
    if name in Actuated(joints) {
      var j :| j in joints && Drives(j) && j.name == name;
      var k :| 0 <= k < |joints| && joints[k] == j;
    }
    if Driven(joints, name) {
      var k :| 0 <= k < |joints| && joints[k].name == name && Drives(joints[k]);
      assert joints[k] in joints;
    }
  }

  /** Every other joint is left exactly as it was: joints that mimic nothing, cycles, chains that are
      longer or that end at a joint nobody drives. */
  lemma OtherJointsStay(joints: seq<Joint>, i: nat)
    requires Distinct(joints) && i < |joints|
    requires joints[i].mimic.Some? ==> forall end | Driven(joints, end) :: !ReachesInNine(joints, i, end)
    ensures Flattened(joints)[i] == joints[i]
  {
    hide Entries, Chase, Flattened, Actuated, Driven, Leads, Within;
    FlattenedAt(joints, i);
    if joints[i].mimic.Some? {
      var end := Chase(Entries(joints), joints[i].mimic.value, 0).target;
      DrivenIsActuated(joints, end);
      if end in Actuated(joints) {
        ActuatedIsNoMimic(joints, end);
        LeadsMeans(joints, joints[i].mimic.value.target, end, 8);
        ChaseReaches(Entries(joints), joints[i].mimic.value, 0, end);
      }
    }
  }
}
