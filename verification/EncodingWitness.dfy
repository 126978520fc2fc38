/** The laws asked of the encodings can be met: an environment in which everything
    marshals, injectively, and every column gives back what it should. */
module EncodingWitness {
  import opened Common
  import opened Events
  import opened Encoding

  // --------------------------------------------------- a prefix-free tree code

  datatype Tree = Leaf(n: nat) | Node(kids: seq<Tree>)

  function Unary(n: nat): bytes {
    if n == 0 then [0] else [1] + Unary(n - 1)
  }

  function Code(t: Tree): bytes {
    match t
    case Leaf(n) => [0] + Unary(n)
    case Node(kids) => [1] + Unary(|kids|) + CodeAll(kids)
  }

  function CodeAll(ts: seq<Tree>): bytes {
    if ts == [] then [] else Code(ts[0]) + CodeAll(ts[1..])
  }

  lemma {:induction false} UnaryIsPrefixFree(m: nat, n: nat, r: bytes, s: bytes)
    requires Unary(m) + r == Unary(n) + s
    ensures m == n && r == s
  {
    assert (Unary(m) + r)[0] == (Unary(n) + s)[0];
    assert (Unary(m) + r)[1..] == (Unary(n) + s)[1..];
    if m == 0 {
      assert (Unary(m) + r)[1..] == r && (Unary(n) + s)[1..] == s;
    } else {
      assert (Unary(m) + r)[1..] == Unary(m - 1) + r && (Unary(n) + s)[1..] == Unary(n - 1) + s;
      UnaryIsPrefixFree(m - 1, n - 1, r, s);
    }
  }

  lemma {:induction false} CodeIsPrefixFree(t: Tree, u: Tree, r: bytes, s: bytes)
    requires Code(t) + r == Code(u) + s
    ensures t == u && r == s
    decreases t
  {
    assert Code(t)[0] == (Code(t) + r)[0] == (Code(u) + s)[0] == Code(u)[0];
    assert (Code(t) + r)[1..] == (Code(u) + s)[1..];
    match t {
      case Leaf(n) =>
        assert (Code(t) + r)[1..] == Unary(n) + r && (Code(u) + s)[1..] == Unary(u.n) + s;
        UnaryIsPrefixFree(n, u.n, r, s);
      case Node(kids) =>
        assert (Code(t) + r)[1..] == Unary(|kids|) + (CodeAll(kids) + r);
        assert (Code(u) + s)[1..] == Unary(|u.kids|) + (CodeAll(u.kids) + s);
        UnaryIsPrefixFree(|kids|, |u.kids|, CodeAll(kids) + r, CodeAll(u.kids) + s);
        CodeAllIsPrefixFree(kids, u.kids, r, s);
    }
  }

  lemma {:induction false} CodeAllIsPrefixFree(ts: seq<Tree>, us: seq<Tree>, r: bytes, s: bytes)
    requires |ts| == |us| && CodeAll(ts) + r == CodeAll(us) + s
    ensures ts == us && r == s
    decreases ts
  {
    if ts == [] {
      assert CodeAll(ts) + r == r && CodeAll(us) + s == s;
    } else {
      assert CodeAll(ts) + r == Code(ts[0]) + (CodeAll(ts[1..]) + r);
      assert CodeAll(us) + s == Code(us[0]) + (CodeAll(us[1..]) + s);
      CodeIsPrefixFree(ts[0], us[0], CodeAll(ts[1..]) + r, CodeAll(us[1..]) + s);
      CodeAllIsPrefixFree(ts[1..], us[1..], r, s);
      assert ts == [ts[0]] + ts[1..] && us == [us[0]] + us[1..];
    }
  }

  // ------------------------------------------------------------ values as trees

  function TextTree(s: string): Tree {
    Node(seq(|s|, i requires 0 <= i < |s| => Leaf(s[i] as nat)))
  }

  function RawTree(s: bytes): Tree {
    Node(seq(|s|, i requires 0 <= i < |s| => Leaf(s[i] as nat)))
  }

  function IntTree(i: int): Tree {
    if i >= 0 then Leaf(i) else Node([Leaf(-i)])
  }

  function PointTree(g: GeoPoint): Tree {
    Node([Leaf(g.lat as nat), Leaf(g.lng as nat), Leaf(g.accuracyM as nat), Leaf(g.altitude as nat),
          Leaf(g.heading as nat)])
  }

  function PlaceTree(g: Option<GeoPoint>): Tree {
    if g.Some? then PointTree(g.value) else Leaf(0)
  }

  function PhotoTree(p: PhotoRef): Tree {
    Node([TextTree(p.s3URI), TextTree(p.sha256), TextTree(p.contentType),
          IntTree(p.width), IntTree(p.height), PlaceTree(p.exifGPS)])
  }

  function PhotosTree(ps: seq<PhotoRef>): Tree {
    Node(seq(|ps|, i requires 0 <= i < |ps| => PhotoTree(ps[i])))
  }

  function SignatureTree(x: SignatureRef): Tree {
    Node([TextTree(x.s3URI), TextTree(x.sha256)])
  }

  function ActorTree(a: Actor): Tree {
    Node([TextTree(a.role), TextTree(a.carrierID), TextTree(a.id), TextTree(a.name)])
  }

  function KindTree(t: EventType): Tree {
    match t
    case PackageDroppedAtLocker => Leaf(0)
    case PickupRequestedByCustomer => Leaf(1)
    case RiderAssigned => Leaf(2)
    case RiderArrivedAtLocker => Leaf(3)
    case PackagePickedUp => Leaf(4)
    case RiderInTransit => Leaf(5)
    case RiderArrivedAtDestination => Leaf(6)
    case PackageDelivered => Leaf(7)
    case DeliveryFailed => Leaf(8)
    case PackageReturnedToLocker => Leaf(9)
    case Unlisted(name) => TextTree(name)
  }

  function TimeTree(t: Option<int>): Tree {
    if t.Some? then Node([IntTree(t.value)]) else Leaf(0)
  }

  function PayloadTree(p: Payload): Tree {
    Node([Leaf(p.eventID), Leaf(p.deliveryID), KindTree(p.kind), IntTree(p.occurredMs), TimeTree(p.carrierMs),
          ActorTree(p.actor), PlaceTree(p.location), PhotosTree(p.photos),
          if p.signature.Some? then SignatureTree(p.signature.value) else Leaf(0),
          TextTree(p.reason), RawTree(p.metadata)])
  }

  lemma TextsDiffer(s: string, t: string)
    requires TextTree(s) == TextTree(t)
    ensures s == t
  {
    assert |TextTree(s).kids| == |s| && |TextTree(t).kids| == |t|;
    forall i | 0 <= i < |s| ensures s[i] == t[i] {
      assert TextTree(s).kids[i] == TextTree(t).kids[i];
    }
  }

  lemma RawsDiffer(s: bytes, t: bytes)
    requires RawTree(s) == RawTree(t)
    ensures s == t
  {
    assert |RawTree(s).kids| == |s| && |RawTree(t).kids| == |t|;
    forall i | 0 <= i < |s| ensures s[i] == t[i] {
      assert RawTree(s).kids[i] == RawTree(t).kids[i];
    }
  }

  lemma PointsDiffer(g: GeoPoint, h: GeoPoint)
    requires PointTree(g) == PointTree(h)
    ensures g == h
  {
    var a, b := PointTree(g).kids, PointTree(h).kids;
    assert a[0] == b[0] && a[1] == b[1] && a[2] == b[2] && a[3] == b[3] && a[4] == b[4];
  }

  lemma PlacesDiffer(g: Option<GeoPoint>, h: Option<GeoPoint>)
    requires PlaceTree(g) == PlaceTree(h)
    ensures g == h
  {
    if g.Some? && h.Some? {
      PointsDiffer(g.value, h.value);
    }
  }

  lemma PhotosDiffer(p: PhotoRef, q: PhotoRef)
    requires PhotoTree(p) == PhotoTree(q)
    ensures p == q
  {
    var a, b := PhotoTree(p).kids, PhotoTree(q).kids;
    assert a[0] == b[0] && a[1] == b[1] && a[2] == b[2] && a[3] == b[3] && a[4] == b[4] && a[5] == b[5];
    TextsDiffer(p.s3URI, q.s3URI);
    TextsDiffer(p.sha256, q.sha256);
    TextsDiffer(p.contentType, q.contentType);
    PlacesDiffer(p.exifGPS, q.exifGPS);
  }

  lemma PhotoListsDiffer(ps: seq<PhotoRef>, qs: seq<PhotoRef>)
    requires PhotosTree(ps) == PhotosTree(qs)
    ensures ps == qs
  {
    assert |PhotosTree(ps).kids| == |ps| && |PhotosTree(qs).kids| == |qs|;
    forall i | 0 <= i < |ps| ensures ps[i] == qs[i] {
      assert PhotosTree(ps).kids[i] == PhotosTree(qs).kids[i];
      PhotosDiffer(ps[i], qs[i]);
    }
  }

  lemma SignaturesDiffer(x: SignatureRef, y: SignatureRef)
    requires SignatureTree(x) == SignatureTree(y)
    ensures x == y
  {
    var a, b := SignatureTree(x).kids, SignatureTree(y).kids;
    assert a[0] == b[0] && a[1] == b[1];
    TextsDiffer(x.s3URI, y.s3URI);
    TextsDiffer(x.sha256, y.sha256);
  }

  lemma ActorsDiffer(x: Actor, y: Actor)
    requires ActorTree(x) == ActorTree(y)
    ensures x == y
  {
    var a, b := ActorTree(x).kids, ActorTree(y).kids;
    assert a[0] == b[0] && a[1] == b[1] && a[2] == b[2] && a[3] == b[3];
    TextsDiffer(x.role, y.role);
    TextsDiffer(x.carrierID, y.carrierID);
    TextsDiffer(x.id, y.id);
    TextsDiffer(x.name, y.name);
  }

  lemma KindsDiffer(x: EventType, y: EventType)
    requires KindTree(x) == KindTree(y)
    ensures x == y
  {
    if x.Unlisted? && y.Unlisted? {
      TextsDiffer(x.name, y.name);
    }
  }

  lemma PayloadsDiffer(p: Payload, q: Payload)
    requires PayloadTree(p) == PayloadTree(q)
    ensures p == q
  {
    var a, b := PayloadTree(p).kids, PayloadTree(q).kids;
    assert a[0] == b[0] && a[1] == b[1] && a[2] == b[2] && a[3] == b[3] && a[4] == b[4];
    KindsDiffer(p.kind, q.kind);
    assert p.carrierMs.Some? && q.carrierMs.Some? ==> a[4].kids[0] == b[4].kids[0];
    assert p.carrierMs == q.carrierMs;
    assert a[5] == b[5] && a[6] == b[6] && a[7] == b[7] && a[8] == b[8] && a[9] == b[9] && a[10] == b[10];
    ActorsDiffer(p.actor, q.actor);
    PlacesDiffer(p.location, q.location);
    PhotoListsDiffer(p.photos, q.photos);
    if p.signature.Some? && q.signature.Some? {
      SignaturesDiffer(p.signature.value, q.signature.value);
    }
    TextsDiffer(p.reason, q.reason);
    RawsDiffer(p.metadata, q.metadata);
  }

  // ----------------------------------------------------------------- the witness

  /** The value a tree code came from. */
  ghost function Undo<T(!new)>(tree: T -> Tree, text: bytes): Option<T> {
    if exists x :: Code(tree(x)) == text then
      var x :| Code(tree(x)) == text;
      Some(x)
    else None
  }

  lemma UndoCode<T(!new)>(tree: T -> Tree, x: T)
    requires forall y :: tree(y) == tree(x) ==> y == x
    ensures Undo(tree, Code(tree(x))) == Some(x)
    ensures |Code(tree(x))| > 0 && Code(tree(x)) != NULL_TEXT && Code(tree(x)) != EMPTY_ARRAY
  {
    var text := Code(tree(x));
    assert text[0] <= 1 && NULL_TEXT[0] == 110 && EMPTY_ARRAY[0] == 91;
    var y := Undo(tree, text).value;
    CodeIsPrefixFree(tree(y), tree(x), [], []);
  }

  ghost function Witness(): Env {
    Env(
      text => text,
      p => Some(Code(PayloadTree(p))),
      text => text,
      Column(x => Some(Code(ActorTree(x))), text => Undo(ActorTree, text)),
      Column(x => Some(Code(PointTree(UnsignedPoint(x)))), text => Undo(PointTree, text)),
      Column(x => Some(Code(PhotosTree(UnsignedPhotos(x)))),
             text => if text == EMPTY_ARRAY then Some([]) else Undo(PhotosTree, text)),
      Column(x => Some(Code(SignatureTree(x))), text => Undo(SignatureTree, text)),
      text => text)
  }

  lemma ActorsComeBack(x: Actor)
    ensures GivesBack(Witness().actors, x, x)
  {
    forall y | ActorTree(y) == ActorTree(x) ensures y == x { ActorsDiffer(y, x); }
    UndoCode(ActorTree, x);
  }

  lemma PlacesComeBack(x: GeoPoint)
    ensures GivesBack(Witness().locations, x, UnsignedPoint(x))
  {
    var u := UnsignedPoint(x);
    forall y | PointTree(y) == PointTree(u) ensures y == u { PointsDiffer(y, u); }
    UndoCode(PointTree, u);
  }

  lemma PhotosComeBack(x: seq<PhotoRef>)
    ensures GivesBack(Witness().photoLists, x, UnsignedPhotos(x))
  {
    var u := UnsignedPhotos(x);
    forall y | PhotosTree(y) == PhotosTree(u) ensures y == u { PhotoListsDiffer(y, u); }
    UndoCode(PhotosTree, u);
  }

  lemma SignaturesComeBack(x: SignatureRef)
    ensures GivesBack(Witness().signatures, x, x)
  {
    forall y | SignatureTree(y) == SignatureTree(x) ensures y == x { SignaturesDiffer(y, x); }
    UndoCode(SignatureTree, x);
  }

  lemma EverythingIsEncodable(p: Payload)
    ensures Encodable(Witness(), p)
  {}

  lemma ColumnsAreLawful(env: Env)
    requires env == Witness()
    ensures LawfulColumns(env)
  {
    forall x: Actor ensures GivesBack(env.actors, x, x) { ActorsComeBack(x); }
    forall x: GeoPoint ensures GivesBack(env.locations, x, UnsignedPoint(x)) { PlacesComeBack(x); }
    forall x: seq<PhotoRef> ensures GivesBack(env.photoLists, x, UnsignedPhotos(x)) { PhotosComeBack(x); }
    forall x: SignatureRef ensures GivesBack(env.signatures, x, x) { SignaturesComeBack(x); }
    forall p: Payload ensures Encodable(env, p) { EverythingIsEncodable(p); }
  }

  lemma SameTextSameContent(p: Payload, q: Payload)
    ensures Witness().marshal(p) == Witness().marshal(q) <==> Canonical(Witness(), p) == Canonical(Witness(), q)
  {
    if Code(PayloadTree(p)) == Code(PayloadTree(q)) {
      CodeIsPrefixFree(PayloadTree(p), PayloadTree(q), [], []);
      PayloadsDiffer(p, q);
    }
    if Canonical(Witness(), p) == Canonical(Witness(), q) {
      assert p == p.(metadata := []).(metadata := p.metadata);
      assert q == q.(metadata := []).(metadata := q.metadata);
    }
  }

  lemma JsonIsLawful()
    ensures LawfulJson(Witness())
  {
    forall p, q { SameTextSameContent(p, q); }
  }

  /** So the laws are consistent, with every payload marshalled and written. */
  lemma LawsCanBeMet()
    ensures exists env: Env :: LawfulColumns(env) && LawfulJson(env) && forall p :: env.marshal(p).Some?
  {
    var env := Witness();
    ColumnsAreLawful(env);
    JsonIsLawful();
    assert forall p :: env.marshal(p).Some?;
  }
}
