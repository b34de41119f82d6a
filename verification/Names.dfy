/**
 The strings behind the identifiers (internal/spock/names.go and the Identifier methods).

 Render gives the type and id strings the source builds.  RenderInjective justifies using
 Identifier constructors as map keys everywhere else: equal strings mean equal identifiers, on
 names whose separators can be read in one place only.
 */
module Names {
  import opened Resources
  import opened Planning
  import D = Desired

  /** strings.ReplaceAll(s, "-", "_") */
  function Undash(s: string): (r: string)
    ensures |r| == |s|
  {
    seq(|s|, i requires 0 <= i < |s| => if s[i] == '-' then '_' else s[i])
  }

  function SlotName(db: string, provider: string, subscriber: string): string {
    Undash("spk_" + db + "_" + provider + "_sub_" + provider + "_" + subscriber)
  }

  function SubName(src: string, dst: string): string {
    Undash("sub_" + src + "_" + dst)
  }

  function PairName(a: string, b: string): string {
    a + "_" + b
  }

  function TypeName(id: Identifier): string {
    match id
    case User(_) => "spock.user"
    case Node(_) => "spock.node"
    case NodeAt(_, _) => "spock.node"
    case Slot(_, _) => "spock.replicationslot"
    case RawSlot(_) => "spock.replicationslot"
    case Sub(_, _) => "spock.subscription"
    case SlotCreate(_, _) => "spock.replication_slot_create"
    case DisabledSub(_, _) => "spock.disabled_subscription"
    case SyncEvent(_, _) => "spock.sync_event"
    case WaitEvent(_, _) => "spock.wait_for_sync_event"
    case PeerCatchup(_, _) => "spock.peer_catchup"
    case LagTracker(_, _) => "spock.lag_tracker_commit_ts"
    case SlotAdvance(_, _) => "spock.replication_slot_advance_from_cts"
    case OriginAdvance(_, _) => "spock.replication_origin_advance"
  }

  function IdName(db: string, id: Identifier): string {
    match id
    case User(n) => n.text
    case Node(n) => n.text
    case NodeAt(o, s) => o.text + "@" + s.text
    case Slot(p, s) => SlotName(db, p.text, s.text)
    case RawSlot(raw) => raw.text
    case Sub(a, b) => SubName(a.text, b.text)
    case SlotCreate(p, s) => SlotName(db, p.text, s.text)
    case DisabledSub(a, b) => SubName(a.text, b.text)
    case SyncEvent(p, s) => PairName(p.text, s.text)
    case WaitEvent(p, s) => PairName(p.text, s.text)
    case PeerCatchup(p, s) => PairName(p.text, s.text)
    case LagTracker(p, s) => PairName(p.text, s.text)
    case SlotAdvance(p, s) => PairName(p.text, s.text)
    case OriginAdvance(p, s) => PairName(p.text, s.text)
  }

  datatype Rendered = Rendered(kind: string, name: string)

  function Render(db: string, id: Identifier): Rendered {
    Rendered(TypeName(id), IdName(db, id))
  }

  predicate Plain(s: string) {
    '-' !in s && '_' !in s
  }

  /** No pair of plain names has this string as its slot name. */
  ghost predicate Unpaired(db: string, raw: string) {
    forall p, s | Plain(p) && Plain(s) :: SlotName(db, p, s) != raw
  }

  /** What each identifier asks of its names; only node entries use '@', only names made of pairs use '_'. */
  ghost predicate PlainId(db: string, id: Identifier) {
    match id
    case User(_) => true
    case Node(n) => '@' !in n.text
    case NodeAt(o, _) => '@' !in o.text
    case RawSlot(raw) => Unpaired(db, raw.text)
    case Slot(a, b) => Plain(a.text) && Plain(b.text)
    case Sub(a, b) => Plain(a.text) && Plain(b.text)
    case SlotCreate(a, b) => Plain(a.text) && Plain(b.text)
    case DisabledSub(a, b) => Plain(a.text) && Plain(b.text)
    case SyncEvent(a, _) => '_' !in a.text
    case WaitEvent(a, _) => '_' !in a.text
    case PeerCatchup(a, _) => '_' !in a.text
    case LagTracker(a, _) => '_' !in a.text
    case SlotAdvance(a, _) => '_' !in a.text
    case OriginAdvance(a, _) => '_' !in a.text
  }

  // ---------------------------------------------------------------------------------------
  // String facts
  // ---------------------------------------------------------------------------------------

  lemma UndashConcat(a: string, b: string)
    ensures Undash(a + b) == Undash(a) + Undash(b)
  {
  }

  lemma UndashPlain(s: string)
    requires '-' !in s
    ensures Undash(s) == s
  {
  }

  lemma UndashSub(a: string, b: string)
    ensures SubName(a, b) == "sub_" + (Undash(a) + "_" + Undash(b))
  {
    UndashConcat("sub_" + a + "_", b);
    UndashConcat("sub_" + a, "_");
    UndashConcat("sub_", a);
    UndashPlain("sub_");
    UndashPlain("_");
    assert SubName(a, b) == "sub_" + Undash(a) + "_" + Undash(b);
  }

  lemma UndashSlot(db: string, p: string, s: string)
    ensures SlotName(db, p, s)
         == ("spk_" + Undash(db) + "_") + (Undash(p) + "_" + ("sub_" + Undash(p) + "_" + Undash(s)))
  {
    var pre, rest := "spk_" + db + "_", "_sub_" + p + "_" + s;
    assert "spk_" + db + "_" + p + "_sub_" + p + "_" + s == pre + (p + rest);
    UndashConcat(pre, p + rest);
    UndashConcat(p, rest);
    UndashPrefix(db);
    UndashRest(p, s);
  }

  lemma UndashPrefix(db: string)
    ensures Undash("spk_" + db + "_") == "spk_" + Undash(db) + "_"
  {
    UndashConcat("spk_" + db, "_");
    UndashConcat("spk_", db);
    UndashPlain("spk_");
    UndashPlain("_");
  }

  lemma UndashRest(p: string, s: string)
    ensures Undash("_sub_" + p + "_" + s) == "_" + ("sub_" + Undash(p) + "_" + Undash(s))
  {
    assert "_sub_" + p + "_" + s == "_" + ("sub_" + p + "_" + s);
    UndashConcat("_", "sub_" + p + "_" + s);
    UndashSub(p, s);
    UndashPlain("_");
  }

  /** Cutting two equal strings at their first separator gives equal pieces. */
  lemma CutAtSeparator(a: string, x: string, b: string, y: string, sep: char)
    requires a + [sep] + x == b + [sep] + y
    requires sep !in a && sep !in b
    ensures a == b && x == y
  {
    var l, r := a + [sep] + x, b + [sep] + y;
    assert l[|a|] == sep == r[|b|];
    if |a| < |b| { assert false; }
    if |b| < |a| { assert false; }
    assert a == l[..|a|] && b == r[..|b|];
    assert x == l[|a| + 1..] && y == r[|b| + 1..];
  }

  lemma DropPrefix(p: string, a: string, b: string)
    requires p + a == p + b
    ensures a == b
  {
    assert a == (p + a)[|p|..] && b == (p + b)[|p|..];
  }

  // ---------------------------------------------------------------------------------------
  // When names collide
  // ---------------------------------------------------------------------------------------

  /** d is a' + "_" + t while b is t + "_" + d': the separator can be read in two places. */
  ghost predicate Shifts(a: string, b: string, c: string, d: string) {
    exists t :: c == a + "_" + t && b == t + "_" + d
  }

  lemma PairsCollide(a: string, b: string, c: string, d: string)
    ensures a + "_" + b == c + "_" + d <==> (a == c && b == d) || Shifts(a, b, c, d) || Shifts(c, d, a, b)
  {
    var l, r := a + "_" + b, c + "_" + d;
    if l == r {
      if |a| == |c| {
        assert a == l[..|a|] && c == r[..|c|] && b == l[|a| + 1..] && d == r[|c| + 1..];
      } else if |a| < |c| {
        ShiftWitness(a, b, c, d);
      } else {
        ShiftWitness(c, d, a, b);
      }
    }
    if Shifts(a, b, c, d) {
      var t :| c == a + "_" + t && b == t + "_" + d;
      assert l == a + "_" + t + "_" + d == r;
    }
    if Shifts(c, d, a, b) {
      var t :| a == c + "_" + t && d == t + "_" + b;
      assert l == c + "_" + t + "_" + b == r;
    }
  }

  lemma ShiftWitness(a: string, b: string, c: string, d: string)
    requires a + "_" + b == c + "_" + d && |a| < |c|
    ensures Shifts(a, b, c, d)
  {
    var l, r := a + "_" + b, c + "_" + d;
    var t := c[|a| + 1..];
    assert forall i | 0 <= i <= |a| :: c[i] == r[i] == l[i];
    assert c == a + "_" + t;
    forall i | 0 <= i < |b| ensures b[i] == (t + "_" + d)[i] {
      assert b[i] == l[|a| + 1 + i] == r[|a| + 1 + i];
    }
    assert b == t + "_" + d;
  }

  /** Exactly when two ordered pairs share a subscription name, for all strings. */
  lemma SubNameCollision(a: string, b: string, c: string, d: string)
    ensures SubName(a, b) == SubName(c, d) <==>
            (Undash(a) == Undash(c) && Undash(b) == Undash(d))
            || Shifts(Undash(a), Undash(b), Undash(c), Undash(d))
            || Shifts(Undash(c), Undash(d), Undash(a), Undash(b))
  {
    UndashSub(a, b);
    UndashSub(c, d);
    if SubName(a, b) == SubName(c, d) {
      DropPrefix("sub_", Undash(a) + "_" + Undash(b), Undash(c) + "_" + Undash(d));
    }
    PairsCollide(Undash(a), Undash(b), Undash(c), Undash(d));
  }

  lemma DashedNamesCollide()
    ensures SubName("a", "b-c") == SubName("a-b", "c")
  {
    assert SubName("a", "b-c") == "sub_a_b_c";
    assert SubName("a-b", "c") == "sub_a_b_c";
  }

  /** Pairs that collide on the subscription name still have different slots, unless they read the same. */
  lemma SlotSeparatesSubs(db: string, p: string, s: string, q: string, t: string)
    requires SubName(p, s) == SubName(q, t)
    ensures SlotName(db, p, s) == SlotName(db, q, t) <==> Undash(p) == Undash(q) && Undash(s) == Undash(t)
  {
    UndashSub(p, s);
    UndashSub(q, t);
    UndashSlot(db, p, s);
    UndashSlot(db, q, t);
    if SlotName(db, p, s) == SlotName(db, q, t) {
      var x, y := Undash(p) + "_" + Undash(s), Undash(q) + "_" + Undash(t);
      DropPrefix("sub_", x, y);
      assert |p| == |q|;
      assert Undash(p) == x[..|p|] && Undash(q) == y[..|q|];
      assert Undash(s) == x[|p| + 1..] && Undash(t) == y[|q| + 1..];
    }
  }

  /** The string behind a slot name: the provider twice, the subscriber once. */
  function SlotTail(p: string, s: string): string {
    p + "_" + ("sub_" + p + "_" + s)
  }

  /** q is p, "_sub" and v, and what follows p's first "_sub" reads as v and a second one. */
  ghost predicate SlotShifts(p: string, s: string, q: string, t: string) {
    exists v :: q == p + "_sub" + v && "_" + p + "_" + s == v + "_sub_" + q + "_" + t
  }

  /** Exactly when two ordered pairs share a slot name, for all strings. */
  lemma SlotNameCollision(db: string, p: string, s: string, q: string, t: string)
    ensures SlotName(db, p, s) == SlotName(db, q, t) <==>
            (Undash(p) == Undash(q) && Undash(s) == Undash(t))
            || SlotShifts(Undash(p), Undash(s), Undash(q), Undash(t))
            || SlotShifts(Undash(q), Undash(t), Undash(p), Undash(s))
  {
    UndashSlot(db, p, s);
    UndashSlot(db, q, t);
    var x, y := SlotTail(Undash(p), Undash(s)), SlotTail(Undash(q), Undash(t));
    if SlotName(db, p, s) == SlotName(db, q, t) {
      DropPrefix("spk_" + Undash(db) + "_", x, y);
      TailsCollide(Undash(p), Undash(s), Undash(q), Undash(t));
    }
    var p', s', q', t' := Undash(p), Undash(s), Undash(q), Undash(t);
    if SlotShifts(p', s', q', t') { ShiftCollides(p', s', q', t'); }
    if SlotShifts(q', t', p', s') { ShiftCollides(q', t', p', s'); }
  }

  lemma ShiftCollides(p: string, s: string, q: string, t: string)
    requires SlotShifts(p, s, q, t)
    ensures SlotTail(p, s) == SlotTail(q, t)
  {
    var v :| q == p + "_sub" + v && "_" + p + "_" + s == v + "_sub_" + q + "_" + t;
    assert SlotTail(p, s) == p + "_sub" + ("_" + p + "_" + s);
    assert p + "_sub" + (v + "_sub_" + q + "_" + t) == (p + "_sub" + v) + ("_sub_" + q + "_" + t);
    assert SlotTail(q, t) == q + ("_sub_" + q + "_" + t);
  }

  lemma TailsCollide(p: string, s: string, q: string, t: string)
    requires SlotTail(p, s) == SlotTail(q, t)
    ensures (p == q && s == t) || SlotShifts(p, s, q, t) || SlotShifts(q, t, p, s)
  {
    var l, r := SlotTail(p, s), SlotTail(q, t);
    if |p| == |q| {
      assert p == l[..|p|] && q == r[..|q|];
      DropPrefix(p + "_" + ("sub_" + p + "_"), s, t) by {
        assert l == p + "_" + ("sub_" + p + "_") + s && r == q + "_" + ("sub_" + q + "_") + t;
      }
    } else if |p| < |q| {
      TailShift(p, s, q, t);
    } else {
      TailShift(q, t, p, s);
    }
  }

  /** The longer provider continues with "_sub": at its own end an underscore follows, not part of the word. */
  lemma TailShift(p: string, s: string, q: string, t: string)
    requires SlotTail(p, s) == SlotTail(q, t) && |p| < |q|
    ensures SlotShifts(p, s, q, t)
  {
    var l, r := SlotTail(p, s), SlotTail(q, t);
    var n := |p|;
    assert l[n] == '_' && l[n + 1] == 's' && l[n + 2] == 'u' && l[n + 3] == 'b' && r[|q|] == '_';
    assert forall i | 0 <= i < |q| :: q[i] == r[i] == l[i];
    assert |q| != n + 1 && |q| != n + 2 && |q| != n + 3;
    var v := q[n + 4..];
    forall i | 0 <= i < |q| ensures q[i] == (p + "_sub" + v)[i] {}
    assert q == p + "_sub" + v;
    assert l == p + "_sub" + ("_" + p + "_" + s);
    assert r == p + "_sub" + (v + "_sub_" + q + "_" + t);
    DropPrefix(p + "_sub", "_" + p + "_" + s, v + "_sub_" + q + "_" + t);
  }

  lemma SubbedNamesCollide(db: string)
    ensures SlotName(db, "a", "sub-a-sub-a-t") == SlotName(db, "a-sub-a", "t")
  {
    UndashSlot(db, "a", "sub-a-sub-a-t");
    UndashSlot(db, "a-sub-a", "t");
    assert Undash("a") == "a" && Undash("t") == "t";
    assert Undash("sub-a-sub-a-t") == "sub_a_sub_a_t" && Undash("a-sub-a") == "a_sub_a";
  }

  lemma PairNameInjective(a: string, b: string, c: string, d: string)
    requires '_' !in a && '_' !in c && PairName(a, b) == PairName(c, d)
    ensures a == c && b == d
  {
    CutAtSeparator(a, b, c, d, '_');
  }

  lemma SubNameInjective(a: string, b: string, c: string, d: string)
    requires Plain(a) && Plain(b) && Plain(c) && Plain(d) && SubName(a, b) == SubName(c, d)
    ensures a == c && b == d
  {
    UndashSub(a, b);
    UndashSub(c, d);
    UndashPlain(a); UndashPlain(b); UndashPlain(c); UndashPlain(d);
    DropPrefix("sub_", a + "_" + b, c + "_" + d);
    PairNameInjective(a, b, c, d);
  }

  /** The slot name determines its pair for every database name. */
  lemma SlotNameInjective(db: string, a: string, b: string, c: string, d: string)
    requires Plain(a) && Plain(b) && Plain(c) && Plain(d) && SlotName(db, a, b) == SlotName(db, c, d)
    ensures a == c && b == d
  {
    UndashSlot(db, a, b);
    UndashSlot(db, c, d);
    UndashPlain(a); UndashPlain(b); UndashPlain(c); UndashPlain(d);
    var x, y := "sub_" + a + "_" + b, "sub_" + c + "_" + d;
    DropPrefix("spk_" + Undash(db) + "_", a + "_" + x, c + "_" + y);
    CutAtSeparator(a, x, c, y, '_');
    assert b == x[5 + |a|..] && d == y[5 + |c|..];
  }

  // ---------------------------------------------------------------------------------------
  // Identifiers and strings agree
  // ---------------------------------------------------------------------------------------

  function KindIndex(id: Identifier): nat {
    match id
    case User(_) => 0
    case Node(_) => 1
    case NodeAt(_, _) => 1
    case Slot(_, _) => 2
    case RawSlot(_) => 2
    case Sub(_, _) => 3
    case SlotCreate(_, _) => 4
    case DisabledSub(_, _) => 5
    case SyncEvent(_, _) => 6
    case WaitEvent(_, _) => 7
    case PeerCatchup(_, _) => 8
    case LagTracker(_, _) => 9
    case SlotAdvance(_, _) => 10
    case OriginAdvance(_, _) => 11
  }

  /** Length and seventh character already tell the type strings apart. */
  function KindOfName(name: string): nat
    requires |name| > 6
  {
    var n, c := |name|, name[6];
    if n == 10 then (if c == 'u' then 0 else 1)
    else if n == 21 then 2
    else if n == 18 then (if c == 's' then 3 else 8)
    else if n == 29 then 4
    else if n == 27 then (if c == 'd' then 5 else 9)
    else if n == 16 then 6
    else if n == 25 then 7
    else if n == 39 then 10
    else 11
  }

  lemma NameTellsKind(id: Identifier)
    ensures |TypeName(id)| > 6 && KindOfName(TypeName(id)) == KindIndex(id)
  {
  }

  lemma TypeNamesDiffer(x: Identifier, y: Identifier)
    requires TypeName(x) == TypeName(y)
    ensures KindIndex(x) == KindIndex(y)
  {
    NameTellsKind(x);
    NameTellsKind(y);
  }

  lemma AtIn(o: string, s: string)
    ensures '@' in o + "@" + s
  {
    assert (o + "@" + s)[|o|] == '@';
  }

  /** The key of an orphan node, which carries '@', is the key of no other node entry. */
  lemma NodeNames(x: Identifier, y: Identifier)
    requires (x.Node? || x.NodeAt?) && (y.Node? || y.NodeAt?)
    requires PlainId("", x) && PlainId("", y) && IdName("", x) == IdName("", y)
    ensures x == y
  {
    match (x, y)
    case (Node(n), NodeAt(o, s)) => AtIn(o.text, s.text);
    case (NodeAt(o, s), Node(n)) => AtIn(o.text, s.text);
    case (NodeAt(o, s), NodeAt(q, u)) => CutAtSeparator(o.text, s.text, q.text, u.text, '@');
    case _ =>
  }

  /** A slot kept under its raw name is not the slot of any pair. */
  lemma SlotNames(db: string, x: Identifier, y: Identifier)
    requires (x.Slot? || x.RawSlot?) && (y.Slot? || y.RawSlot?)
    requires PlainId(db, x) && PlainId(db, y) && IdName(db, x) == IdName(db, y)
    ensures x == y
  {
    match (x, y)
    case (Slot(a, b), Slot(c, d)) => SlotNameInjective(db, a.text, b.text, c.text, d.text);
    case (RawSlot(r), RawSlot(q)) =>
    case (Slot(a, b), RawSlot(q)) => assert false;
    case (RawSlot(r), Slot(a, b)) => assert false;
  }

  /** Equal type and id strings mean equal identifiers. */
  lemma RenderInjective(db: string, x: Identifier, y: Identifier)
    requires PlainId(db, x) && PlainId(db, y) && Render(db, x) == Render(db, y)
    ensures x == y
  {
    TypeNamesDiffer(x, y);
    match x
    case User(n) =>
    case Node(n) => NodeNames(x, y);
    case NodeAt(o, s) => NodeNames(x, y);
    case RawSlot(raw) => SlotNames(db, x, y);
    case Slot(a, b) => SlotNames(db, x, y);
    case Sub(a, b) => SubNameInjective(a.text, b.text, y.src.text, y.dst.text);
    case SlotCreate(a, b) => SlotNameInjective(db, a.text, b.text, y.provider.text, y.subscriber.text);
    case DisabledSub(a, b) => SubNameInjective(a.text, b.text, y.src.text, y.dst.text);
    case SyncEvent(a, b) => PairNameInjective(a.text, b.text, y.provider.text, y.subscriber.text);
    case WaitEvent(a, b) => PairNameInjective(a.text, b.text, y.provider.text, y.subscriber.text);
    case PeerCatchup(a, b) => PairNameInjective(a.text, b.text, y.peer.text, y.source.text);
    case LagTracker(a, b) => PairNameInjective(a.text, b.text, y.origin.text, y.receiver.text);
    case SlotAdvance(a, b) => PairNameInjective(a.text, b.text, y.provider.text, y.subscriber.text);
    case OriginAdvance(a, b) => PairNameInjective(a.text, b.text, y.provider.text, y.subscriber.text);
  }

  // ---------------------------------------------------------------------------------------
  // References between resources are strings too
  // ---------------------------------------------------------------------------------------

  /** A populate resource and the end-state resource it prepares name the same slot, and the same subscription. */
  lemma SharedNames(db: string, p: Name, s: Name)
    ensures IdName(db, Slot(p, s)) == IdName(db, SlotCreate(p, s)) == SlotName(db, p.text, s.text)
    ensures IdName(db, Sub(p, s)) == IdName(db, DisabledSub(p, s)) == SubName(p.text, s.text)
  {
  }

  lemma KnownSubName()
    ensures SubName("n1", "n2") == "sub_n1_n2"
  {
    UndashSub("n1", "n2");
    UndashPlain("n1");
    UndashPlain("n2");
    assert "n1" + "_" + "n2" == "n1_n2";
    assert "sub_" + "n1_n2" == "sub_n1_n2";
  }

  lemma KnownSlotName()
    ensures SlotName("app", "n1", "n2") == "spk_app_n1_sub_n1_n2"
  {
    UndashSlot("app", "n1", "n2");
    UndashPlain("app");
    UndashPlain("n1");
    UndashPlain("n2");
    assert "spk_" + "app" + "_" == "spk_app_";
    assert "sub_" + "n1" + "_" + "n2" == "sub_n1_n2";
    assert "n1" + "_" + "sub_n1_n2" == "n1_sub_n1_n2";
    assert "spk_app_" + "n1_sub_n1_n2" == "spk_app_n1_sub_n1_n2";
  }

  lemma KnownDashedNames()
    ensures SubName("us-east-1", "us-west-2") == "sub_us_east_1_us_west_2"
    ensures SlotName("my-db", "n-1", "n-2") == "spk_my_db_n_1_sub_n_1_n_2"
  {
    UndashSub("us-east-1", "us-west-2");
    assert Undash("us-east-1") == "us_east_1" && Undash("us-west-2") == "us_west_2";
    assert "us_east_1" + "_" + "us_west_2" == "us_east_1_us_west_2";
    assert "sub_" + "us_east_1_us_west_2" == "sub_us_east_1_us_west_2";
    KnownDashedSlot();
  }

  lemma KnownDashedSlot()
    ensures SlotName("my-db", "n-1", "n-2") == "spk_my_db_n_1_sub_n_1_n_2"
  {
    UndashSlot("my-db", "n-1", "n-2");
    assert Undash("my-db") == "my_db" && Undash("n-1") == "n_1" && Undash("n-2") == "n_2";
    assert "spk_" + "my_db" + "_" == "spk_my_db_";
    assert "sub_" + "n_1" + "_" + "n_2" == "sub_n_1_n_2";
    assert "n_1" + "_" + "sub_n_1_n_2" == "n_1_sub_n_1_n_2";
    assert "spk_my_db_" + "n_1_sub_n_1_n_2" == "spk_my_db_n_1_sub_n_1_n_2";
  }

  function Rendering(db: string, ids: seq<Identifier>): seq<Rendered> {
    seq(|ids|, i requires 0 <= i < |ids| => Render(db, ids[i]))
  }

  /** What each struct's Dependencies method formats from its own node names. */
  function OwnReferences(db: string, id: Identifier): seq<Rendered> {
    match id
    case User(_) => []
    case Node(n) => [Rendered("spock.user", n.text)]
    case Slot(p, _) => [Rendered("spock.node", p.text)]
    case Sub(a, b) => [Rendered("spock.node", a.text), Rendered("spock.node", b.text),
                       Rendered("spock.replicationslot", SlotName(db, a.text, b.text))]
    case SlotCreate(p, _) => [Rendered("spock.node", p.text)]
    case DisabledSub(a, b) => [Rendered("spock.node", a.text), Rendered("spock.node", b.text),
                               Rendered("spock.replication_slot_create", SlotName(db, a.text, b.text))]
    case SyncEvent(p, s) => [Rendered("spock.node", p.text),
                             Rendered("spock.subscription", SubName(p.text, s.text))]
    case WaitEvent(p, s) => [Rendered("spock.sync_event", p.text + "_" + s.text)]
    case PeerCatchup(p, s) => [Rendered("spock.sync_event", p.text + "_" + s.text)]
    case LagTracker(_, m) => [Rendered("spock.node", m.text)]
    case SlotAdvance(p, m) => [Rendered("spock.node", p.text),
                               Rendered("spock.lag_tracker_commit_ts", p.text + "_" + m.text)]
    case OriginAdvance(p, m) => [Rendered("spock.replication_slot_advance_from_cts", p.text + "_" + m.text)]
    case _ => []
  }

  /** Whatever ComputeDesired adds to the struct's own references, the strings are those of the resources meant. */
  lemma ReferencesResolve(cfg: D.Config, db: string, id: Identifier, deps: seq<Identifier>)
    requires D.InDesired(cfg, id) && D.DepsAllowed(cfg, id, deps)
    ensures var own := OwnReferences(db, id); |own| <= |deps| && Rendering(db, deps[..|own|]) == own
  {
  }

  /** The extra references formatted for an end-state subscription that is not copied from its provider. */
  function ExtraReferences(a: Name, b: Name, isNewDst: bool, newSrc: Option<Name>): seq<Rendered> {
    (if isNewDst then [Rendered("spock.replication_origin_advance", a.text + "_" + b.text)] else [])
    + match newSrc
      case Some(source) => [Rendered("spock.wait_for_sync_event", source.text + "_" + a.text)]
      case None => []
  }

  lemma ExtraReferencesResolve(cfg: D.Config, db: string, a: Name, b: Name, deps: seq<Identifier>)
    requires D.SourceOf(cfg, b) != Some(a) && D.DepsAllowed(cfg, Sub(a, b), deps)
    ensures Rendering(db, deps) == OwnReferences(db, Sub(a, b))
                                   + ExtraReferences(a, b, D.SourceOf(cfg, b).Some?, D.SourceOf(cfg, a))
  {
  }
}
