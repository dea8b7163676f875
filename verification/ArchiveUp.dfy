/** `archive up`: any number of attempts, each stopping anywhere, come to one server, one key and one
    volume per tier, and never make a second of any. (crates/cli/src/archive.rs,
    crates/core/src/archive/plan.rs and cloud.rs) */
module ArchiveUp {
  import opened Wrappers

  datatype Tier = Snap | Big

  type Id = nat

  datatype Server = Server(id: Id, guarded: bool, off: bool)

  /** `fit`: formatted ext4, in the server's location, and not smaller than the flags ask. */
  datatype Volume = Volume(id: Id, tier: Option<Tier>, at: Option<Id>, guarded: bool, fit: bool)

  /** `ours`: it holds the key of this state dir. */
  datatype Key = Key(id: Id, ours: bool)

  /** What carries the archive's label; `lookalike`: something has its name without the label. */
  datatype Cloud = Cloud(servers: seq<Server>, volumes: seq<Volume>, keys: seq<Key>, lookalike: bool)

  datatype Step =
    | CreateSshKey
    | CreateServer
    | ProtectServer
    | CreateVolume(tier: Tier)
    | AttachVolume(tier: Tier, id: Id)
    | ProtectVolume(tier: Tier, id: Id)
    | PowerOn(id: Id)

  function OfTier(vs: seq<Volume>, t: Tier): seq<Volume> {
    if vs == [] then []
    else
      var n := |vs| - 1;
      OfTier(vs[..n], t) + if vs[n].tier == Some(t) then [vs[n]] else []
  }

  /** The volume of a tier, if exactly one. */
  function VolumeOf(c: Cloud, t: Tier): Option<Volume> {
    if |OfTier(c.volumes, t)| == 1 then Some(OfTier(c.volumes, t)[0]) else None
  }

  /** The server, if exactly one. */
  function ServerOf(c: Cloud): Option<Server> {
    if |c.servers| == 1 then Some(c.servers[0]) else None
  }

  // ---- the plan --------------------------------------------------------------------------------

  /** A volume of no tier, of another make or place, or attached to another server. */
  predicate Unfit(v: Volume, servers: seq<Server>) {
    v.tier == None || !v.fit || (v.at.Some? && (servers == [] || v.at.value != servers[0].id))
  }

  predicate AllFit(vs: seq<Volume>, servers: seq<Server>) {
    forall v | v in vs :: !Unfit(v, servers)
  }

  /** Anything ambiguous is refused. */
  predicate Refuses(c: Cloud) {
    || c.lookalike || |c.servers| > 1 || |c.keys| > 1
    || !AllFit(c.volumes, c.servers)
    || |OfTier(c.volumes, Snap)| > 1 || |OfTier(c.volumes, Big)| > 1
    || (c.servers == [] && c.keys != [] && !c.keys[0].ours)
  }

  function VolumeSteps(c: Cloud, t: Tier): seq<Step> {
    match VolumeOf(c, t)
    case None => [CreateVolume(t)]
    case Some(v) =>
      (if v.at.None? then [AttachVolume(t, v.id)] else []) + (if v.guarded then [] else [ProtectVolume(t, v.id)])
  }

  function ServerSteps(c: Cloud): seq<Step> {
    match ServerOf(c)
    case None => (if c.keys == [] then [CreateSshKey] else []) + [CreateServer, ProtectServer]
    case Some(s) => if s.guarded then [] else [ProtectServer]
  }

  function PowerSteps(c: Cloud): seq<Step> {
    match ServerOf(c)
    case None => []
    case Some(s) => if s.off then [PowerOn(s.id)] else []
  }

  /** What `up` does to the cloud, in order (then it pins the host key and runs the setup). */
  function Plan(c: Cloud): Option<seq<Step>> {
    if Refuses(c) then None else Some(ServerSteps(c) + VolumeSteps(c, Snap) + VolumeSteps(c, Big) + PowerSteps(c))
  }

  // ---- the effects -------------------------------------------------------------------------------

  function Guard(c: Cloud, id: Id): Cloud {
    c.(servers := seq(|c.servers|, i requires 0 <= i < |c.servers| =>
      if c.servers[i].id == id then c.servers[i].(guarded := true) else c.servers[i]))
  }

  function Power(c: Cloud, id: Id): Cloud {
    c.(servers := seq(|c.servers|, i requires 0 <= i < |c.servers| =>
      if c.servers[i].id == id then c.servers[i].(off := false) else c.servers[i]))
  }

  function Attach(vs: seq<Volume>, id: Id, at: Id): seq<Volume> {
    seq(|vs|, i requires 0 <= i < |vs| => if vs[i].id == id then vs[i].(at := Some(at)) else vs[i])
  }

  function GuardVolume(vs: seq<Volume>, id: Id): seq<Volume> {
    seq(|vs|, i requires 0 <= i < |vs| => if vs[i].id == id then vs[i].(guarded := true) else vs[i])
  }

  // ---- what every attempt keeps --------------------------------------------------------------------

  /** Never more than one of anything. */
  predicate AtMostOne(c: Cloud) {
    |c.servers| <= 1 && |c.keys| <= 1 && |OfTier(c.volumes, Snap)| <= 1 && |OfTier(c.volumes, Big)| <= 1
  }

  /** Whatever there was is there still, and the same one. */
  ghost predicate StillThere(c: Cloud, c': Cloud) {
    && (forall s | s in c.servers :: HasServer(c', s.id))
    && (forall v | v in c.volumes :: HasVolume(c', v.id, v.tier))
    && (forall k | k in c.keys :: k in c'.keys)
  }

  ghost predicate HasServer(c: Cloud, id: Id) {
    exists s :: s in c.servers && s.id == id
  }

  ghost predicate HasVolume(c: Cloud, id: Id, t: Option<Tier>) {
    exists v :: v in c.volumes && v.id == id && v.tier == t
  }

  /** Everything is there, guarded, attached and on. */
  ghost predicate Ready(c: Cloud) {
    && |c.servers| == 1 && c.servers[0].guarded && !c.servers[0].off
    && ReadyVolume(c, Snap) && ReadyVolume(c, Big)
  }

  ghost predicate ReadyVolume(c: Cloud, t: Tier)
    requires |c.servers| == 1
  {
    VolumeOf(c, t).Some? && VolumeOf(c, t).value.at == Some(c.servers[0].id) && VolumeOf(c, t).value.guarded
  }

  lemma {:induction false} OfTierMore(vs: seq<Volume>, v: Volume, t: Tier)
    ensures OfTier(vs + [v], t) == OfTier(vs, t) + if v.tier == Some(t) then [v] else []
  {
    assert (vs + [v])[..|vs|] == vs;
  }

  lemma {:induction false} OfTierIn(vs: seq<Volume>, t: Tier, v: Volume)
    ensures v in OfTier(vs, t) <==> v in vs && v.tier == Some(t)
  {
    if vs != [] {
      assert vs == vs[..|vs| - 1] + [vs[|vs| - 1]];
      OfTierIn(vs[..|vs| - 1], t, v);
    }
  }

  /** The same volumes, each perhaps attached or guarded since. */
  predicate SameVolumes(vs: seq<Volume>, vs': seq<Volume>) {
    |vs| == |vs'| && forall i | 0 <= i < |vs| :: vs'[i].id == vs[i].id && vs'[i].tier == vs[i].tier
  }

  lemma {:induction false} SameOfTier(vs: seq<Volume>, vs': seq<Volume>, t: Tier)
    requires SameVolumes(vs, vs')
    ensures SameVolumes(OfTier(vs, t), OfTier(vs', t))
  {
    if vs != [] {
      var n := |vs| - 1;
      SameOfTier(vs[..n], vs'[..n], t);
    }
  }

  lemma SameKeeps(c: Cloud, vs': seq<Volume>)
    requires SameVolumes(c.volumes, vs')
    ensures AtMostOne(c) ==> AtMostOne(c.(volumes := vs'))
    ensures StillThere(c, c.(volumes := vs'))
  {
    SameOfTier(c.volumes, vs', Snap);
    SameOfTier(c.volumes, vs', Big);
    forall v | v in c.volumes ensures HasVolume(c.(volumes := vs'), v.id, v.tier) {
      var i :| 0 <= i < |c.volumes| && c.volumes[i] == v;
      assert vs'[i] in vs';
    }
  }

  lemma StillThereChains(a: Cloud, b: Cloud, c: Cloud)
    requires StillThere(a, b) && StillThere(b, c)
    ensures StillThere(a, c)
  {
    forall s | s in a.servers ensures HasServer(c, s.id) {
      var r :| r in b.servers && r.id == s.id;
    }
    forall v | v in a.volumes ensures HasVolume(c, v.id, v.tier) {
      var w :| w in b.volumes && w.id == v.id && w.tier == v.tier;
    }
  }

  lemma StillThereItself(c: Cloud)
    ensures StillThere(c, c)
  {}

  lemma MoreVolumes(c: Cloud, v: Volume)
    requires AtMostOne(c) && v.tier.Some? && OfTier(c.volumes, v.tier.value) == []
    ensures AtMostOne(c.(volumes := c.volumes + [v])) && StillThere(c, c.(volumes := c.volumes + [v]))
  {
    OfTierMore(c.volumes, v, Snap);
    OfTierMore(c.volumes, v, Big);
    forall w | w in c.volumes ensures HasVolume(c.(volumes := c.volumes + [v]), w.id, w.tier) {
      assert w in c.volumes + [v];
    }
  }

  // ---- one step ------------------------------------------------------------------------------------

  predicate Distinct(vs: seq<Volume>) {
    forall i, j | 0 <= i < j < |vs| :: vs[i].id != vs[j].id
  }

  predicate Unused(c: Cloud, id: Id) {
    (forall s | s in c.servers :: s.id != id) && (forall v | v in c.volumes :: v.id != id)
        && (forall k | k in c.keys :: k.id != id)
  }

  /** What a step comes to, whole or (a volume made but not yet guarded) in part; `id`: of what it
      makes. */
  function Effect(c: Cloud, step: Step, id: Id, whole: bool): Cloud {
    match step
    case CreateSshKey => c.(keys := c.keys + [Key(id, true)])
    case CreateServer => c.(servers := c.servers + [Server(id, false, false)])
    case ProtectServer => if c.servers == [] then c else Guard(c, c.servers[0].id)
    case CreateVolume(t) =>
      if c.servers == [] then c
      else c.(volumes := c.volumes + [Volume(id, Some(t), Some(c.servers[0].id), whole, true)])
    case AttachVolume(t, v) => if c.servers == [] then c else c.(volumes := Attach(c.volumes, v, c.servers[0].id))
    case ProtectVolume(t, v) => c.(volumes := GuardVolume(c.volumes, v))
    case PowerOn(s) => Power(c, s)
  }

  /** The step is the next of the plan for what is there. */
  ghost predicate IsNext(c: Cloud, step: Step, rest: seq<Step>) {
    Plan(c) == Some([step] + rest) && Distinct(c.volumes)
  }

  lemma PlannedIsOne(c: Cloud)
    requires Plan(c).Some?
    ensures AtMostOne(c)
  {}

  /** A volume of no other tier touched: the tier's own is as it was. */
  lemma {:induction false} TouchedOnly(vs: seq<Volume>, vs': seq<Volume>, id: Id, v': Volume, t: Tier)
    requires Distinct(vs) && |vs| == |vs'|
    requires forall i | 0 <= i < |vs| :: vs'[i] == if vs[i].id == id then v' else vs[i]
    requires forall v | v in vs && v.id == id :: v'.tier == v.tier
    ensures |OfTier(vs', t)| == |OfTier(vs, t)|
    ensures forall i | 0 <= i < |OfTier(vs, t)| ::
            OfTier(vs', t)[i] == if OfTier(vs, t)[i].id == id then v' else OfTier(vs, t)[i]
  {
    if vs != [] {
      var n := |vs| - 1;
      TouchedOnly(vs[..n], vs'[..n], id, v', t);
      assert vs[n] in vs;
    }
  }

  lemma Head(a: seq<Step>, tail: seq<Step>, step: Step, rest: seq<Step>)
    requires a + tail == [step] + rest
    ensures a != [] ==> step == a[0] && rest == a[1..] + tail
    ensures a == [] ==> tail == [step] + rest
  {
    if a != [] {
      assert (a + tail)[0] == a[0] && (a + tail)[1..] == a[1..] + tail && ([step] + rest)[1..] == rest;
    } else {
      assert a + tail == tail;
    }
  }

  /** The first step of a plan, and what is left of it. */
  lemma First(c: Cloud, step: Step, rest: seq<Step>)
    requires Plan(c) == Some([step] + rest)
    ensures var a, b, d, e := ServerSteps(c), VolumeSteps(c, Snap), VolumeSteps(c, Big), PowerSteps(c);
            if a != [] then step == a[0] && rest == a[1..] + b + d + e
            else if b != [] then step == b[0] && rest == b[1..] + d + e
            else if d != [] then step == d[0] && rest == d[1..] + e
            else e != [] && step == e[0] && rest == e[1..]
  {
    var a, b, d, e := ServerSteps(c), VolumeSteps(c, Snap), VolumeSteps(c, Big), PowerSteps(c);
    assert a + b + d + e == a + (b + (d + e));
    Head(a, b + (d + e), step, rest);
    if a == [] {
      Head(b, d + e, step, rest);
      if b == [] {
        Head(d, e, step, rest);
        if d == [] {
          Head(e, [], step, rest);
          assert e[1..] + [] == e[1..];
        }
      }
    }
  }

  lemma ServerStepDone(c: Cloud, step: Step, rest: seq<Step>, id: Id)
    requires Plan(c) == Some([step] + rest) && ServerSteps(c) != []
    ensures Plan(Effect(c, step, id, true)) == Some(rest)
  {
    First(c, step, rest);
    var c' := Effect(c, step, id, true);
    assert VolumeSteps(c', Snap) == VolumeSteps(c, Snap) && VolumeSteps(c', Big) == VolumeSteps(c, Big);
    assert !Refuses(c');
    assert ServerSteps(c') == ServerSteps(c)[1..];
    assert PowerSteps(c') == PowerSteps(c);
  }

  /** The tier whose step it is. */
  predicate IsStepOf(c: Cloud, t: Tier, step: Step) {
    VolumeSteps(c, t) != [] && step == VolumeSteps(c, t)[0]
  }

  function OtherTier(t: Tier): Tier {
    if t == Snap then Big else Snap
  }

  lemma VolumeMade(c: Cloud, t: Tier, id: Id, whole: bool)
    requires !Refuses(c) && |c.servers| == 1 && VolumeOf(c, t) == None
    ensures var c' := Effect(c, CreateVolume(t), id, whole);
            && !Refuses(c') && VolumeSteps(c', t) == (if whole then [] else [ProtectVolume(t, id)])
            && VolumeSteps(c', OtherTier(t)) == VolumeSteps(c, OtherTier(t))
  {
    VolumeAdded(c, Volume(id, Some(t), Some(c.servers[0].id), whole, true), t);
  }

  lemma VolumeAdded(c: Cloud, v: Volume, t: Tier)
    requires !Refuses(c) && |c.servers| == 1 && VolumeOf(c, t) == None
    requires v.tier == Some(t) && v.at == Some(c.servers[0].id) && v.fit
    ensures var c' := c.(volumes := c.volumes + [v]);
            && !Refuses(c') && VolumeSteps(c', t) == (if v.guarded then [] else [ProtectVolume(t, v.id)])
            && VolumeSteps(c', OtherTier(t)) == VolumeSteps(c, OtherTier(t))
  {
    MadeOfTier(c, v, t);
    OneMoreFits(c, v);
    MadeIsNotRefused(c, v, t);
    SameSteps(c, c.(volumes := c.volumes + [v]), OtherTier(t));
    StepsOfMade(c.(volumes := c.volumes + [v]), v, t);
  }

  lemma StepsOfMade(c: Cloud, v: Volume, t: Tier)
    requires OfTier(c.volumes, t) == [v] && v.at.Some?
    ensures VolumeSteps(c, t) == if v.guarded then [] else [ProtectVolume(t, v.id)]
  {}

  lemma MadeIsNotRefused(c: Cloud, v: Volume, t: Tier)
    requires !Refuses(c) && |c.servers| == 1 && AllFit(c.volumes + [v], c.servers)
    requires OfTier(c.volumes + [v], t) == [v]
             && OfTier(c.volumes + [v], OtherTier(t)) == OfTier(c.volumes, OtherTier(t))
    ensures !Refuses(c.(volumes := c.volumes + [v]))
  {
    assert t == Snap || t == Big;
  }

  lemma SameSteps(c: Cloud, c': Cloud, t: Tier)
    requires OfTier(c'.volumes, t) == OfTier(c.volumes, t)
    ensures VolumeSteps(c', t) == VolumeSteps(c, t)
  {}

  /** It is the only one of its tier, and the other tier's are as they were. */
  lemma MadeOfTier(c: Cloud, v: Volume, t: Tier)
    requires VolumeOf(c, t) == None && |OfTier(c.volumes, t)| <= 1 && v.tier == Some(t)
    ensures OfTier(c.volumes + [v], t) == [v]
            && OfTier(c.volumes + [v], OtherTier(t)) == OfTier(c.volumes, OtherTier(t))
  {
    OfTierMore(c.volumes, v, t);
    OfTierMore(c.volumes, v, OtherTier(t));
  }

  lemma OneMoreFits(c: Cloud, v: Volume)
    requires AllFit(c.volumes, c.servers) && !Unfit(v, c.servers)
    ensures AllFit(c.volumes + [v], c.servers)
  {}

  /** A volume attached, or guarded: nothing else of the plan changes. */
  lemma VolumeTouched(c: Cloud, t: Tier, v': Volume, vs': seq<Volume>)
    requires !Refuses(c) && Distinct(c.volumes) && VolumeOf(c, t).Some?
    requires var v := VolumeOf(c, t).value;
             && v'.id == v.id && v'.tier == v.tier && v'.fit == v.fit
             && (v'.at == v.at || (|c.servers| == 1 && v'.at == Some(c.servers[0].id)))
             && |vs'| == |c.volumes| && forall i | 0 <= i < |vs'| ::
                vs'[i] == if c.volumes[i].id == v.id then v' else c.volumes[i]
    ensures var c' := c.(volumes := vs');
            !Refuses(c') && VolumeOf(c', t) == Some(v') && VolumeSteps(c', OtherTier(t)) == VolumeSteps(c, OtherTier(t))
  {
    var v := VolumeOf(c, t).value;
    assert OfTier(c.volumes, t)[0] == v;
    OfTierIn(c.volumes, t, v);
    OneOfId(c.volumes, v);
    TouchedOnly(c.volumes, vs', v.id, v', t);
    TouchedOnly(c.volumes, vs', v.id, v', OtherTier(t));
    OtherStays(c, t, v, vs');
    StaysFit(c, v.id, v', vs');
  }

  lemma OneOfId(vs: seq<Volume>, v: Volume)
    requires Distinct(vs) && v in vs
    ensures forall w | w in vs && w.id == v.id :: w == v
  {
    forall w | w in vs && w.id == v.id ensures w == v {
      var i, j :| 0 <= i < |vs| && vs[i] == w && 0 <= j < |vs| && vs[j] == v;
      assert i == j;
    }
  }

  lemma OtherStays(c: Cloud, t: Tier, v: Volume, vs': seq<Volume>)
    requires v in c.volumes && v.tier == Some(t) && (forall w | w in c.volumes && w.id == v.id :: w == v)
    requires |OfTier(vs', OtherTier(t))| == |OfTier(c.volumes, OtherTier(t))|
    requires forall i | 0 <= i < |OfTier(c.volumes, OtherTier(t))| && OfTier(c.volumes, OtherTier(t))[i].id != v.id ::
               OfTier(vs', OtherTier(t))[i] == OfTier(c.volumes, OtherTier(t))[i]
    ensures OfTier(vs', OtherTier(t)) == OfTier(c.volumes, OtherTier(t))
  {
    var others := OfTier(c.volumes, OtherTier(t));
    forall i | 0 <= i < |others| ensures others[i].id != v.id {
      OfTierIn(c.volumes, OtherTier(t), others[i]);
    }
  }

  lemma StaysFit(c: Cloud, id: Id, v': Volume, vs': seq<Volume>)
    requires !Unfit(v', c.servers) && AllFit(c.volumes, c.servers)
    requires |vs'| == |c.volumes| && forall i | 0 <= i < |vs'| ::
             vs'[i] == if c.volumes[i].id == id then v' else c.volumes[i]
    ensures AllFit(vs', c.servers)
  {
    forall v | v in vs' ensures !Unfit(v, c.servers) {
      var i :| 0 <= i < |vs'| && vs'[i] == v;
      assert c.volumes[i] in c.volumes;
    }
  }

  lemma VolumeStepDone(c: Cloud, t: Tier, step: Step, id: Id)
    requires !Refuses(c) && Distinct(c.volumes) && |c.servers| == 1 && IsStepOf(c, t, step)
    ensures var c' := Effect(c, step, id, true);
            !Refuses(c') && VolumeSteps(c', t) == VolumeSteps(c, t)[1..]
                && VolumeSteps(c', OtherTier(t)) == VolumeSteps(c, OtherTier(t))
  {
    if VolumeOf(c, t) == None {
      VolumeMade(c, t, id, true);
    } else {
      TouchDone(c, t, id);
    }
  }

  lemma TouchDone(c: Cloud, t: Tier, id: Id)
    requires !Refuses(c) && Distinct(c.volumes) && |c.servers| == 1 && VolumeOf(c, t).Some? && VolumeSteps(c, t) != []
    ensures var c' := Effect(c, VolumeSteps(c, t)[0], id, true);
            !Refuses(c') && VolumeSteps(c', t) == VolumeSteps(c, t)[1..]
                && VolumeSteps(c', OtherTier(t)) == VolumeSteps(c, OtherTier(t))
  {
    var v := VolumeOf(c, t).value;
    OfTierIn(c.volumes, t, v);
    if v.at.None? {
      VolumeTouched(c, t, v.(at := Some(c.servers[0].id)), Attach(c.volumes, v.id, c.servers[0].id));
    } else {
      VolumeTouched(c, t, v.(guarded := true), GuardVolume(c.volumes, v.id));
    }
  }

  /** A step that is done is off the plan, and the plan for what is then there is the rest. */
  lemma StepDone(c: Cloud, step: Step, rest: seq<Step>, id: Id)
    requires IsNext(c, step, rest)
    ensures Plan(Effect(c, step, id, true)) == Some(rest)
  {
    First(c, step, rest);
    var c' := Effect(c, step, id, true);
    if ServerSteps(c) != [] {
      ServerStepDone(c, step, rest, id);
    } else if VolumeSteps(c, Snap) != [] {
      VolumeStepDone(c, Snap, step, id);
      assert ServerSteps(c') == [] && PowerSteps(c') == PowerSteps(c);
      assert [] + VolumeSteps(c', Snap) == VolumeSteps(c', Snap);
    } else if VolumeSteps(c, Big) != [] {
      VolumeStepDone(c, Big, step, id);
      assert ServerSteps(c') == [] && PowerSteps(c') == PowerSteps(c) && VolumeSteps(c', Snap) == [];
      assert [] + [] + VolumeSteps(c', Big) == VolumeSteps(c', Big);
    } else {
      assert VolumeSteps(c', Snap) == [] && VolumeSteps(c', Big) == [];
    }
  }

  /** A volume made and not guarded is not refused by the next attempt, which guards it
      and makes no other. */
  lemma HalfDone(c: Cloud, t: Tier, rest: seq<Step>, id: Id)
    requires IsNext(c, CreateVolume(t), rest)
    ensures var c' := Effect(c, CreateVolume(t), id, false);
            && Plan(c').Some? && CreateVolume(t) !in Plan(c').value
            && VolumeSteps(c', t) == [ProtectVolume(t, id)]
               && VolumeSteps(c', OtherTier(t)) == VolumeSteps(c, OtherTier(t))
  {
    NextNeeds(c, CreateVolume(t), rest);
    VolumeMade(c, t, id, false);
    var c' := Effect(c, CreateVolume(t), id, false);
    NoCreateOf(c', OtherTier(t), t);
    MadeNowhereElse(c', t);
  }

  lemma NoCreateOf(c: Cloud, of: Tier, t: Tier)
    requires of != t
    ensures CreateVolume(t) !in VolumeSteps(c, of)
  {}

  lemma MadeNowhereElse(c: Cloud, t: Tier)
    requires Plan(c).Some? && CreateVolume(t) !in VolumeSteps(c, Snap) && CreateVolume(t) !in VolumeSteps(c, Big)
    ensures CreateVolume(t) !in Plan(c).value
  {
    assert CreateVolume(t) !in ServerSteps(c) && CreateVolume(t) !in PowerSteps(c);
  }

  /** What a volume's first step tells. */
  lemma VolumeStepNeeds(c: Cloud, t: Tier)
    requires !Refuses(c) && VolumeSteps(c, t) != []
    ensures var s := VolumeSteps(c, t)[0];
            && !s.CreateSshKey? && !s.CreateServer?
            && (s.CreateVolume? ==> s.tier == t && OfTier(c.volumes, t) == [])
  {}

  /** What a create is planned for is not there, and what it needs is. */
  lemma NextNeeds(c: Cloud, step: Step, rest: seq<Step>)
    requires IsNext(c, step, rest)
    ensures AtMostOne(c)
    ensures step == CreateSshKey ==> c.keys == [] && c.servers == []
    ensures step == CreateServer ==> c.keys != [] && c.servers == []
    ensures step.CreateVolume? ==> |c.servers| == 1 && OfTier(c.volumes, step.tier) == []
  {
    First(c, step, rest);
    if ServerSteps(c) == [] {
      if VolumeSteps(c, Snap) != [] {
        VolumeStepNeeds(c, Snap);
      } else if VolumeSteps(c, Big) != [] {
        VolumeStepNeeds(c, Big);
      }
    }
  }

  lemma MadeKeeps(c: Cloud, step: Step, id: Id)
    requires AtMostOne(c) && (step == CreateSshKey ==> c.keys == []) && (step == CreateServer ==> c.servers == [])
    requires step == CreateSshKey || step == CreateServer
    ensures var c' := Effect(c, step, id, true); AtMostOne(c') && StillThere(c, c')
  {
    forall v | v in c.volumes ensures HasVolume(Effect(c, step, id, true), v.id, v.tier) {}
  }

  lemma ServerTouched(c: Cloud, id: Id)
    requires AtMostOne(c)
    ensures AtMostOne(Guard(c, id)) && StillThere(c, Guard(c, id))
    ensures AtMostOne(Power(c, id)) && StillThere(c, Power(c, id))
  {
    ServersStay(c, Guard(c, id));
    ServersStay(c, Power(c, id));
  }

  lemma TouchedKeeps(c: Cloud, step: Step, id: Id)
    requires AtMostOne(c) && !step.CreateSshKey? && !step.CreateServer? && !step.CreateVolume?
    ensures var c' := Effect(c, step, id, true); AtMostOne(c') && StillThere(c, c')
    ensures SameVolumes(c.volumes, Effect(c, step, id, true).volumes)
  {
    StillThereItself(c);
    match step
    case AttachVolume(t, v) =>
      if c.servers != [] {
        SameKeeps(c, Attach(c.volumes, v, c.servers[0].id));
      }
    case ProtectVolume(t, v) => SameKeeps(c, GuardVolume(c.volumes, v));
    case ProtectServer =>
      if c.servers != [] {
        ServerTouched(c, c.servers[0].id);
      }
    case PowerOn(s) => ServerTouched(c, s);
  }

  lemma DistinctStays(vs: seq<Volume>, vs': seq<Volume>)
    requires Distinct(vs) && SameVolumes(vs, vs')
    ensures Distinct(vs')
  {}

  /** What the step would make is not there. */
  predicate Missing(c: Cloud, step: Step) {
    && (step.CreateSshKey? ==> c.keys == []) && (step.CreateServer? ==> c.servers == [])
    && (step.CreateVolume? ==> OfTier(c.volumes, step.tier) == [])
  }

  /** Whatever comes of a step, whole or in part, nothing is there twice and nothing is gone: whether
      or not it was planned for what is there now. */
  lemma EffectKeeps(c: Cloud, step: Step, id: Id, whole: bool)
    requires AtMostOne(c) && Distinct(c.volumes) && Unused(c, id) && (whole || step.CreateVolume?) && Missing(c, step)
    ensures var c' := Effect(c, step, id, whole); AtMostOne(c') && StillThere(c, c') && Distinct(c'.volumes)
  {
    StillThereItself(c);
    if step.CreateVolume? {
      if c.servers != [] {
        MoreVolumes(c, Volume(id, Some(step.tier), Some(c.servers[0].id), whole, true));
      }
    } else if step.CreateSshKey? || step.CreateServer? {
      MadeKeeps(c, step, id);
    } else {
      TouchedKeeps(c, step, id);
      DistinctStays(c.volumes, Effect(c, step, id, true).volumes);
    }
  }

  /** A planned one, done, leaves the rest of the plan; half done, it leaves some plan. */
  lemma EffectPlans(c: Cloud, step: Step, rest: seq<Step>, id: Id, whole: bool)
    requires IsNext(c, step, rest) && (whole || step.CreateVolume?)
    ensures Plan(Effect(c, step, id, whole)).Some? && (whole ==> Plan(Effect(c, step, id, whole)) == Some(rest))
  {
    if whole {
      StepDone(c, step, rest, id);
    } else {
      HalfDone(c, step.tier, rest, id);
    }
  }

  lemma ServersStay(c: Cloud, c': Cloud)
    requires c'.volumes == c.volumes && c'.keys == c.keys && |c'.servers| == |c.servers|
    requires forall i | 0 <= i < |c.servers| :: c'.servers[i].id == c.servers[i].id
    ensures StillThere(c, c')
  {
    forall s | s in c.servers ensures HasServer(c', s.id) {
      var i :| 0 <= i < |c.servers| && c.servers[i] == s;
      assert c'.servers[i] in c'.servers;
    }
  }

  /** With nothing left to do everything is there. */
  lemma EmptyIsReady(c: Cloud)
    requires Plan(c) == Some([])
    ensures Ready(c)
  {
    assert ServerSteps(c) == [] && VolumeSteps(c, Snap) == [] && VolumeSteps(c, Big) == [] && PowerSteps(c) == [];
    TierIsReady(c, Snap);
    TierIsReady(c, Big);
  }

  lemma TierIsReady(c: Cloud, t: Tier)
    requires !Refuses(c) && |c.servers| == 1 && VolumeSteps(c, t) == []
    ensures ReadyVolume(c, t)
  {
    var v := OfTier(c.volumes, t)[0];
    assert v in OfTier(c.volumes, t);
    OfTierIn(c.volumes, t, v);
    assert !Unfit(v, c.servers);
  }

  /** And where everything is there nothing is done. */
  lemma ReadyIsEmpty(c: Cloud)
    requires Ready(c) && !Refuses(c)
    ensures Plan(c) == Some([])
  {}

  /** Every id in use is below this one. */
  predicate Below(c: Cloud, id: Id) {
    (forall s | s in c.servers :: s.id < id) && (forall v | v in c.volumes :: v.id < id)
        && (forall k | k in c.keys :: k.id < id)
  }

  lemma SameIdsBelow(vs: seq<Volume>, vs': seq<Volume>, id: Id)
    requires SameVolumes(vs, vs') && forall v | v in vs :: v.id < id
    ensures forall v | v in vs' :: v.id < id
  {
    forall v | v in vs' ensures v.id < id {
      var i :| 0 <= i < |vs'| && vs'[i] == v;
      assert vs[i] in vs;
    }
  }

  lemma IdsBelow(c: Cloud, step: Step, id: Id, whole: bool)
    requires Below(c, id)
    ensures Below(Effect(c, step, id, whole), id + 1)
  {
    var c' := Effect(c, step, id, whole);
    if step.AttachVolume? || step.ProtectVolume? {
      SameIdsBelow(c.volumes, c'.volumes, id);
    }
  }

  // ---- what is refused ------------------------------------------------------------------------------

  /** A volume is of neither tier, cannot be used as it is, or is attached to a server that is not there. */
  ghost predicate Strange(c: Cloud, v: Volume) {
    v.tier == None || !v.fit || (v.at.Some? && forall s | s in c.servers :: s.id != v.at.value)
  }

  ghost predicate TwoOfATier(vs: seq<Volume>) {
    exists i, j :: 0 <= i < j < |vs| && vs[i].tier.Some? && vs[i].tier == vs[j].tier
  }

  /** It cannot be told what is the archive's: something has its name without its label, there are two of
      something, a volume is strange, or without a server there is a key that is not this state dir's. */
  ghost predicate Ambiguous(c: Cloud) {
    || c.lookalike || |c.servers| >= 2 || |c.keys| >= 2 || TwoOfATier(c.volumes)
    || (exists v :: v in c.volumes && Strange(c, v))
    || (c.servers == [] && exists k :: k in c.keys && !k.ours)
  }

  ghost predicate OneOf(vs: seq<Volume>, t: Tier) {
    exists i :: 0 <= i < |vs| && vs[i].tier == Some(t)
  }

  ghost predicate TwoOf(vs: seq<Volume>, t: Tier) {
    exists i, j :: 0 <= i < j < |vs| && vs[i].tier == Some(t) && vs[j].tier == Some(t)
  }

  lemma OneOfMore(vs: seq<Volume>, v: Volume, t: Tier)
    ensures OneOf(vs + [v], t) <==> OneOf(vs, t) || v.tier == Some(t)
  {
    var all := vs + [v];
    if OneOf(vs, t) {
      var i :| 0 <= i < |vs| && vs[i].tier == Some(t);
      assert all[i].tier == Some(t);
    }
    if v.tier == Some(t) {
      assert all[|vs|].tier == Some(t);
    }
  }

  lemma TwoOfMore(vs: seq<Volume>, v: Volume, t: Tier)
    ensures TwoOf(vs + [v], t) <==> TwoOf(vs, t) || (OneOf(vs, t) && v.tier == Some(t))
  {
    var all := vs + [v];
    if TwoOf(vs, t) {
      var i, j :| 0 <= i < j < |vs| && vs[i].tier == Some(t) && vs[j].tier == Some(t);
      assert all[i].tier == Some(t) && all[j].tier == Some(t);
    }
    if OneOf(vs, t) && v.tier == Some(t) {
      var i :| 0 <= i < |vs| && vs[i].tier == Some(t);
      assert all[i].tier == Some(t) && all[|vs|].tier == Some(t);
    }
    if TwoOf(all, t) {
      var i, j :| 0 <= i < j < |all| && all[i].tier == Some(t) && all[j].tier == Some(t);
      assert vs[i].tier == Some(t) && (j < |vs| ==> vs[j].tier == Some(t));
    }
  }

  lemma {:induction false} OfTierTwice(vs: seq<Volume>, t: Tier)
    ensures (|OfTier(vs, t)| >= 2 <==> TwoOf(vs, t)) && (|OfTier(vs, t)| >= 1 <==> OneOf(vs, t))
  {
    if vs != [] {
      var n := |vs| - 1;
      OfTierTwice(vs[..n], t);
      OneOfMore(vs[..n], vs[n], t);
      TwoOfMore(vs[..n], vs[n], t);
      assert vs == vs[..n] + [vs[n]];
    }
  }

  lemma TiersTwice(vs: seq<Volume>)
    ensures TwoOfATier(vs) <==> |OfTier(vs, Snap)| >= 2 || |OfTier(vs, Big)| >= 2
  {
    OfTierTwice(vs, Snap);
    OfTierTwice(vs, Big);
    if TwoOfATier(vs) {
      var i, j :| 0 <= i < j < |vs| && vs[i].tier.Some? && vs[i].tier == vs[j].tier;
      match vs[i].tier.value
      case Snap => assert TwoOf(vs, Snap);
      case Big => assert TwoOf(vs, Big);
    }
    if TwoOf(vs, Snap) {
      var i, j :| 0 <= i < j < |vs| && vs[i].tier == Some(Snap) && vs[j].tier == Some(Snap);
    }
    if TwoOf(vs, Big) {
      var i, j :| 0 <= i < j < |vs| && vs[i].tier == Some(Big) && vs[j].tier == Some(Big);
    }
  }

  /** There is a plan exactly if nothing is ambiguous. */
  lemma RefusedExactly(c: Cloud)
    ensures Plan(c) == None <==> Ambiguous(c)
  {
    TiersTwice(c.volumes);
    if |c.servers| <= 1 {
      forall v | v in c.volumes ensures Unfit(v, c.servers) <==> Strange(c, v) {}
      assert AllFit(c.volumes, c.servers) <==> !exists v :: v in c.volumes && Strange(c, v);
    }
    if |c.keys| == 1 {
      assert forall k | k in c.keys :: k == c.keys[0];
      assert c.keys[0] in c.keys;
    }
  }

  /** An empty project is not refused. */
  lemma EmptyIsNotRefused()
    ensures !Ambiguous(Cloud([], [], [], false))
  {}

  // ---- the attempts ---------------------------------------------------------------------------------

  /** What an attempt leaves: nothing is there twice, nothing is gone, one that gets through leaves
      everything there, and one that finds it so does nothing. */
  ghost predicate UpLeaves(c: Cloud, c': Cloud, done: bool) {
    && StillThere(c, c') && (AtMostOne(c) ==> AtMostOne(c'))
    && (Ambiguous(c) ==> !done && c' == c) && (!Ambiguous(c) ==> !Ambiguous(c'))
    && (done ==> Ready(c'))
    && (Ready(c) && !Ambiguous(c) ==> done && c' == c)
  }

  /** An attempt under way, from `c`, with the rest of its plan to do. */
  ghost predicate Onward(c: Cloud, now: Cloud, rest: seq<Step>) {
    StillThere(c, now) && AtMostOne(now) && Distinct(now.volumes) && Plan(now) == Some(rest)
  }

  lemma SetsOut(c: Cloud, steps: seq<Step>)
    requires Plan(c) == Some(steps) && Distinct(c.volumes)
    ensures Onward(c, c, steps) && steps[0..] == steps
  {
    PlannedIsOne(c);
    StillThereItself(c);
  }

  lemma UpRefused(c: Cloud)
    requires Plan(c) == None
    ensures UpLeaves(c, c, false)
  {
    RefusedExactly(c);
    StillThereItself(c);
  }

  /** What a run of the plan leaves, wherever it stops. */
  ghost predicate Stays(c: Cloud, now: Cloud) {
    StillThere(c, now) && AtMostOne(now) && Plan(now).Some?
  }

  lemma UpEnds(c: Cloud, steps: seq<Step>, now: Cloud, done: bool)
    requires Plan(c) == Some(steps) && Stays(c, now)
    requires (done ==> Plan(now) == Some([])) && (steps == [] ==> done && now == c)
    ensures UpLeaves(c, now, done) && !Ambiguous(c)
  {
    RefusedExactly(c);
    RefusedExactly(now);
    if done {
      EmptyIsReady(now);
    }
    if Ready(c) {
      ReadyIsEmpty(c);
    }
  }

  /** How a call goes: it has its effect or not, the whole of it or not, and its answer is heard or not. */
  datatype Call = Call(happens: bool, whole: bool, heard: bool)

  const WELL := Call(true, true, true)

  ghost predicate AllWell(calls: nat -> Call) {
    forall i: nat :: calls(i) == WELL
  }

  /** The listing before a planned step finds that it may go on. */
  lemma NextIsListed(c: Cloud, step: Step, rest: seq<Step>, r: Option<bool>)
    requires IsNext(c, step, rest)
    requires r.Some? && r.value ==> !Missing(c, step)
    requires r.Some? && !r.value ==> step.CreateServer? || step.CreateVolume?
    requires r.Some? && !r.value ==> c.servers == [] && (step.CreateServer? ==> c.keys == [])
    ensures r == None
  {
    NextNeeds(c, step, rest);
    assert Missing(c, step);
  }

  class Project {
    var cloud: Cloud
    var nextId: Id

    ghost predicate Valid()
      reads this
    {
      Distinct(cloud.volumes) && Below(cloud, nextId)
    }

    constructor (c: Cloud, id: Id)
      requires Distinct(c.volumes) && Below(c, id)
      ensures Valid() && cloud == c
    {
      cloud := c;
      nextId := id;
    }

    /** One step of `up`. A create lists again first. Any call may fail, with its effect or without;
        `ok`: the whole of it is there. A planned step whose call goes well is. */
    method RunUpStep(step: Step, ghost rest: seq<Step>, call: Call) returns (ok: bool)
      requires Valid() && AtMostOne(cloud)
      modifies this
      ensures Valid() && AtMostOne(cloud) && StillThere(old(cloud), cloud)
      ensures IsNext(old(cloud), step, rest) ==> Plan(cloud).Some? && (ok ==> Plan(cloud) == Some(rest))
      ensures IsNext(old(cloud), step, rest) && call == WELL ==> ok
    {
      var c, id := cloud, nextId;
      StillThereItself(c);
      var listed := ListAgain(c, step);
      if IsNext(c, step, rest) {
        NextIsListed(c, step, rest, listed);
      }
      if listed.Some? {
        return listed.value;
      }
      var whole := call.whole || !step.CreateVolume?;
      if call.happens {
        EffectKeeps(c, step, id, whole);
        IdsBelow(c, step, id, whole);
        cloud := Effect(c, step, id, whole);
        nextId := id + 1;
        if IsNext(c, step, rest) {
          EffectPlans(c, step, rest, id, whole);
        }
      }
      ok := call.happens && call.heard && whole;
    }

    /** What the fresh listing before a create finds: the thing is there already (`true`), or what it
        needs is not (`false`), or it may go on. */
    method ListAgain(c: Cloud, step: Step) returns (r: Option<bool>)
      requires AtMostOne(c)
      ensures r == None ==> Missing(c, step)
      ensures r.Some? && r.value ==> !Missing(c, step)
      ensures r.Some? && !r.value ==>
                c.servers == [] && (step.CreateServer? ==> c.keys == []) && (step.CreateServer? || step.CreateVolume?)
    {
      match step
      case CreateSshKey => r := if c.keys != [] then Some(true) else None;
      case CreateServer => r := if ServerOf(c).Some? then Some(true) else if c.keys == [] then Some(false) else None;
      case CreateVolume(t) =>
        assert t == Snap || t == Big;
        r := if VolumeOf(c, t).Some? then Some(true) else if c.servers == [] then Some(false) else None;
      case _ => r := None;
    }

    /** A step of an attempt under way. */
    method RunNext(ghost c: Cloud, step: Step, ghost left: seq<Step>, call: Call) returns (ok: bool)
      requires Valid() && left != [] && step == left[0] && Onward(c, cloud, left)
      modifies this
      ensures Valid() && Stays(c, cloud) && (ok ==> Onward(c, cloud, left[1..])) && (call == WELL ==> ok)
    {
      ghost var before := cloud;
      assert left == [step] + left[1..];
      ok := RunUpStep(step, left[1..], call);
      StillThereChains(c, before, cloud);
    }

    /** The plan's steps in order, until one fails. */
    method RunPlan(steps: seq<Step>, calls: nat -> Call) returns (done: bool)
      requires Valid() && Onward(cloud, cloud, steps)
      modifies this
      ensures Valid() && Stays(old(cloud), cloud)
      ensures done ==> Plan(cloud) == Some([])
      ensures steps == [] ==> done && cloud == old(cloud)
      ensures (forall i | 0 <= i < |steps| :: calls(i) == WELL) ==> done
    {
      ghost var c, left := cloud, steps;
      for i := 0 to |steps|
        invariant left == steps[i..]
        invariant Valid() && Onward(c, cloud, left)
        invariant i == 0 ==> cloud == c
      {
        var ok := RunNext(c, steps[i], left, calls(i));
        if !ok {
          return false;
        }
        left := left[1..];
      }
      done := true;
    }

    /** One attempt. If nothing is ambiguous and every call goes well, it gets through. */
    method Up(calls: nat -> Call) returns (done: bool)
      requires Valid()
      modifies this
      ensures Valid() && UpLeaves(old(cloud), cloud, done)
      ensures !Ambiguous(old(cloud)) && AllWell(calls) ==> done && Ready(cloud)
    {
      ghost var c := cloud;
      RefusedExactly(c);
      var plan := Plan(cloud);
      if plan == None {
        UpRefused(c);
        return false;
      }
      SetsOut(c, plan.value);
      done := RunPlan(plan.value, calls);
      UpEnds(c, plan.value, cloud, done);
    }

    /** Any number of attempts, each stopping anywhere: none of them makes anything ambiguous, and one more
        whose calls all go well leaves everything there. */
    method Attempts(calls: seq<nat -> Call>) returns (done: bool)
      requires Valid() && AtMostOne(cloud)
      modifies this
      ensures Valid() && AtMostOne(cloud) && StillThere(old(cloud), cloud)
      ensures !Ambiguous(old(cloud)) ==> !Ambiguous(cloud)
      ensures !Ambiguous(old(cloud)) && calls != [] && AllWell(calls[|calls| - 1]) ==>
                done && Ready(cloud)
    {
      StillThereItself(cloud);
      ghost var c := cloud;
      done := false;
      for i := 0 to |calls|
        invariant Valid() && AtMostOne(cloud) && StillThere(c, cloud) && (!Ambiguous(c) ==> !Ambiguous(cloud))
        invariant !Ambiguous(c) && i > 0 && AllWell(calls[i - 1]) ==> done && Ready(cloud)
      {
        ghost var before := cloud;
        done := Up(calls[i]);
        StillThereChains(c, before, cloud);
      }
    }
  }
}
