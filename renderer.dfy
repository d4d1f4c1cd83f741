/**
 * The renderer-facing properties of the remote viewport and the change log
 * kept for them: the `RendererProps` record, its entries (`[key, value]`
 * pairs, one constructor per key), the object-spread merge of a partial
 * update and `getEntries`, the snapshot of all properties in key order.
 */
module Renderer {
  import opened Wrappers

  /** A 4x4 camera transform, column-major as gl-matrix stores it; opaque to the machine. */
  type Mat4 = seq<real>

  /** `mat4.create()`: the identity transform. */
  const Identity: Mat4 :=
    [1.0, 0.0, 0.0, 0.0,
     0.0, 1.0, 0.0, 0.0,
     0.0, 0.0, 1.0, 0.0,
     0.0, 0.0, 0.0, 1.0]

  datatype Key = DensityKey | CameraPoseKey | ImageKey

  /** One `[key, value]` entry; the constructor is the key, so key and value always agree in type. */
  datatype Entry =
    | Density(density: real)
    | CameraPose(pose: Mat4)
    | Image(image: Option<string>)
  {
    function Key(): Key {
      match this
      case Density(_) => DensityKey
      case CameraPose(_) => CameraPoseKey
      case Image(_) => ImageKey
    }
  }

  datatype Props = Props(density: real, cameraPose: Mat4, image: Option<string>)

  /** The properties a new session starts from. */
  const InitialProps: Props := Props(30.0, Identity, Some("data/aneurism.ome.tif"))

  /** The entry `[k, p[k]]`. */
  function Field(p: Props, k: Key): (e: Entry)
    ensures e.Key() == k
  {
    match k
    case DensityKey => Density(p.density)
    case CameraPoseKey => CameraPose(p.cameraPose)
    case ImageKey => Image(p.image)
  }

  /** `{...p, [e.key]: e.value}`: overwrite one field. */
  function Set(p: Props, e: Entry): (r: Props)
    ensures Field(r, e.Key()) == e
    ensures forall k :: k != e.Key() ==> Field(r, k) == Field(p, k)
  {
    match e
    case Density(d) => p.(density := d)
    case CameraPose(m) => p.(cameraPose := m)
    case Image(i) => p.(image := i)
  }

  /** Two records with the same entry for every key are the same record. */
  lemma FieldsDetermineProps(p: Props, q: Props)
    requires forall k :: Field(p, k) == Field(q, k)
    ensures p == q
  {
    assert Field(p, DensityKey) == Field(q, DensityKey);
    assert Field(p, CameraPoseKey) == Field(q, CameraPoseKey);
    assert Field(p, ImageKey) == Field(q, ImageKey);
  }

  /**
   * `{...p, ...partial}` with the partial given as its entries in supply
   * order: fields are written one after the other, so a later entry for a
   * key wins over an earlier one.
   */
  function Merge(p: Props, partial: seq<Entry>): (r: Props)
    ensures forall k :: Last(partial, k).Some? ==> Field(r, k) == Last(partial, k).value
    ensures forall k :: Last(partial, k).None? ==> Field(r, k) == Field(p, k)
    decreases |partial|
  {
    if partial == [] then p
    else Set(Merge(p, partial[..|partial| - 1]), partial[|partial| - 1])
  }

  /** The last entry for key `k` in an entry log, if any. */
  function Last(log: seq<Entry>, k: Key): (r: Option<Entry>)
    ensures r.Some? ==> r.value in log && r.value.Key() == k
    ensures r.None? <==> forall i :: 0 <= i < |log| ==> log[i].Key() != k
    ensures r.Some? ==> exists i :: 0 <= i < |log| && log[i] == r.value && forall j :: i < j < |log| ==> log[j].Key() != k
    decreases |log|
  {
    if log == [] then None
    else if log[|log| - 1].Key() == k then Some(log[|log| - 1])
    else Last(log[..|log| - 1], k)
  }

  /** `getEntries(p)`: every property once, in declaration order density, cameraPose, image. */
  function Entries(p: Props): (r: seq<Entry>)
    ensures |r| == 3
    ensures r[0].Key() == DensityKey && r[1].Key() == CameraPoseKey && r[2].Key() == ImageKey
    ensures forall k :: Last(r, k) == Some(Field(p, k))
  {
    var r := [Density(p.density), CameraPose(p.cameraPose), Image(p.image)];
    assert r[..2] == [Density(p.density), CameraPose(p.cameraPose)];
    assert r[..2][..1] == [Density(p.density)];
    assert r[..2][..1][..0] == [];
    assert Last(r, ImageKey) == Some(Image(p.image));
    assert Last(r, CameraPoseKey) == Last(r[..2], CameraPoseKey) == Some(CameraPose(p.cameraPose));
    assert Last(r, DensityKey) == Last(r[..2][..1], DensityKey) == Some(Density(p.density));
    r
  }

  /**
   * The log agrees with `p`: for every key that occurs in the log, its last
   * logged value is the current value of that key in `p`.
   */
  ghost predicate Replays(log: seq<Entry>, p: Props) {
    forall k :: Last(log, k).Some? ==> Last(log, k).value == Field(p, k)
  }

  /** The last entry of a concatenation comes from its second part when that part has one. */
  lemma {:induction false} LastConcat(a: seq<Entry>, b: seq<Entry>, k: Key)
    ensures Last(a + b, k) == if Last(b, k).Some? then Last(b, k) else Last(a, k)
    decreases |b|
  {
    if b == [] {
      assert a + b == a;
    } else {
      assert (a + b)[..|a + b| - 1] == a + b[..|b| - 1];
      assert (a + b)[|a + b| - 1] == b[|b| - 1];
      LastConcat(a, b[..|b| - 1], k);
    }
  }

  /** Merging two partials one after the other is merging their concatenation. */
  lemma {:induction false} MergeConcat(p: Props, a: seq<Entry>, b: seq<Entry>)
    ensures Merge(p, a + b) == Merge(Merge(p, a), b)
  {
    forall k ensures Field(Merge(p, a + b), k) == Field(Merge(Merge(p, a), b), k) {
      LastConcat(a, b, k);
    }
    FieldsDetermineProps(Merge(p, a + b), Merge(Merge(p, a), b));
  }

  /** A log agrees with `p` exactly when replaying it onto `p` changes nothing. */
  lemma ReplaysIsFixedPoint(log: seq<Entry>, p: Props)
    ensures Replays(log, p) <==> Merge(p, log) == p
  {
    forall k ensures Field(Merge(p, log), k) == if Last(log, k).Some? then Last(log, k).value else Field(p, k) {
    }
    if Merge(p, log) == p {
      assert Replays(log, p);
    }
    if Replays(log, p) {
      FieldsDetermineProps(Merge(p, log), p);
    }
  }

  /**
   * Appending a partial to a log that agrees with `p` gives a log that
   * agrees with the merged record: no queued change is ever shadowed by a
   * stale value.
   */
  lemma UpdateKeepsReplays(log: seq<Entry>, p: Props, partial: seq<Entry>)
    requires Replays(log, p)
    ensures Replays(log + partial, Merge(p, partial))
  {
    forall k | Last(log + partial, k).Some?
      ensures Last(log + partial, k).value == Field(Merge(p, partial), k)
    {
      LastConcat(log, partial, k);
    }
  }

  /** Any log followed by a full snapshot of `p` agrees with `p`. */
  lemma SnapshotReplays(log: seq<Entry>, p: Props)
    ensures Replays(log + Entries(p), p)
  {
    forall k ensures Last(log + Entries(p), k) == Some(Field(p, k)) {
      LastConcat(log, Entries(p), k);
    }
  }

  /** The snapshot is complete: replayed onto any record whatever, it reproduces `p`. */
  lemma SnapshotRestores(base: Props, p: Props)
    ensures Merge(base, Entries(p)) == p
  {
    forall k ensures Field(Merge(base, Entries(p)), k) == Field(p, k) {
    }
    FieldsDetermineProps(Merge(base, Entries(p)), p);
  }
}
