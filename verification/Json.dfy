/** JSON trees, and the reading and defaulting idioms the payload builders share. */
module Json {

  datatype Json =
    | Null
    | Bool(b: bool)
    | Num(n: real)
    | Str(s: string)
    | Arr(elems: seq<Json>)
    | Obj(fields: map<string, Json>)

  type Fields = map<string, Json>

  /** The bytes of a body, as far as decoding sees them. */
  datatype Body = Malformed | Tree(json: Json)

  /** The object under a key, or an empty one when there is none. */
  function ObjAt(m: Fields, k: string): Fields {
    if k in m && m[k].Obj? then m[k].fields else map[]
  }

  predicate HasObj(m: Fields, k: string) {
    k in m && m[k].Obj?
  }

  predicate HasArr(m: Fields, k: string) {
    k in m && m[k].Arr?
  }

  predicate HasStr(m: Fields, k: string) {
    k in m && m[k].Str?
  }

  /** The string under a key, or the empty one. */
  function StrAt(m: Fields, k: string): string {
    if HasStr(m, k) then m[k].s else ""
  }

  /** The first non-empty string. */
  function OrElse(s: string, t: string): string {
    if s != "" then s else t
  }

  /** A string under `k`, unless one is there already. */
  function Default(m: Fields, k: string, v: string): Fields {
    if HasStr(m, k) then m else m[k := Str(v)]
  }

  /** Several defaults, one after the other. */
  function Fill(m: Fields, ds: seq<(string, string)>): Fields {
    if ds == [] then m else Default(Fill(m, ds[..|ds| - 1]), ds[|ds| - 1].0, ds[|ds| - 1].1)
  }

  predicate Names(ds: seq<(string, string)>, k: string) {
    exists i :: 0 <= i < |ds| && ds[i].0 == k
  }

  /** Filling gives every name a string, keeps the strings that were there, and leaves other keys alone. */
  lemma {:induction false} FillMeaning(m: Fields, ds: seq<(string, string)>, k: string)
    ensures Names(ds, k) ==> HasStr(Fill(m, ds), k)
    ensures HasStr(m, k) || !Names(ds, k) ==> (k in Fill(m, ds) <==> k in m) && (k in m ==> Fill(m, ds)[k] == m[k])
  {
    if ds != [] {
      var n := |ds| - 1;
      FillMeaning(m, ds[..n], k);
      if Names(ds, k) && ds[n].0 != k {
        var i :| 0 <= i < |ds| && ds[i].0 == k;
        assert ds[..n][i].0 == k;
      }
      if Names(ds[..n], k) {
        var i :| 0 <= i < n && ds[..n][i].0 == k;
        assert ds[i].0 == k;
      }
    }
  }

  /** The first default given for a name. */
  function FirstOf(ds: seq<(string, string)>, k: string): string {
    if ds == [] then ""
    else if Names(ds[..|ds| - 1], k) then FirstOf(ds[..|ds| - 1], k)
    else if ds[|ds| - 1].0 == k then ds[|ds| - 1].1 else ""
  }

  /** A name that held no string holds the first default given for it. */
  lemma {:induction false} FillValue(m: Fields, ds: seq<(string, string)>, k: string)
    requires Names(ds, k)
    ensures StrAt(Fill(m, ds), k) == if HasStr(m, k) then m[k].s else FirstOf(ds, k)
  {
    var n := |ds| - 1;
    FillMeaning(m, ds[..n], k);
    if Names(ds[..n], k) {
      FillValue(m, ds[..n], k);
    } else {
      LastNames(ds, k);
    }
  }

  /** A name given, but not before the last default, is that of the last. */
  lemma LastNames(ds: seq<(string, string)>, k: string)
    requires ds != []
    ensures Names(ds, k) <==> Names(ds[..|ds| - 1], k) || ds[|ds| - 1].0 == k
  {
    assert ds == ds[..|ds| - 1] + [ds[|ds| - 1]];
    NamesConcat(ds[..|ds| - 1], [ds[|ds| - 1]], k);
    assert Names([ds[|ds| - 1]], k) <==> ds[|ds| - 1].0 == k by {
      assert [ds[|ds| - 1]][0].0 == ds[|ds| - 1].0;
    }
  }

  lemma NamesConcat(ds: seq<(string, string)>, es: seq<(string, string)>, k: string)
    ensures Names(ds + es, k) <==> Names(ds, k) || Names(es, k)
  {
    if Names(ds, k) {
      var i :| 0 <= i < |ds| && ds[i].0 == k;
      assert (ds + es)[i].0 == k;
    }
    if Names(es, k) {
      var i :| 0 <= i < |es| && es[i].0 == k;
      assert (ds + es)[|ds| + i].0 == k;
    }
  }

  lemma {:induction false} FirstOfConcat(ds: seq<(string, string)>, es: seq<(string, string)>, k: string)
    ensures FirstOf(ds + es, k) == if Names(ds, k) then FirstOf(ds, k) else FirstOf(es, k)
  {
    if es == [] {
      assert ds + es == ds;
      if !Names(ds, k) && ds != [] {
        FirstOfNone(ds, k);
      }
    } else {
      var n := |es| - 1;
      assert (ds + es)[..|ds| + n] == ds + es[..n];
      NamesConcat(ds, es[..n], k);
      FirstOfConcat(ds, es[..n], k);
    }
  }

  lemma FirstOfNone(ds: seq<(string, string)>, k: string)
    requires ds != [] && !Names(ds, k)
    ensures FirstOf(ds, k) == ""
  {
    LastNames(ds, k);
  }

  /** There is nothing left to fill once every name has a string. */
  lemma {:induction false} FillDone(m: Fields, ds: seq<(string, string)>)
    requires forall i | 0 <= i < |ds| :: HasStr(m, ds[i].0)
    ensures Fill(m, ds) == m
  {
    if ds != [] {
      FillDone(m, ds[..|ds| - 1]);
    }
  }

  lemma {:induction false} FillConcat(m: Fields, ds: seq<(string, string)>, es: seq<(string, string)>)
    ensures Fill(Fill(m, ds), es) == Fill(m, ds + es)
  {
    if es == [] {
      assert ds + es == ds;
    } else {
      assert (ds + es)[..|ds + es| - 1] == ds + es[..|es| - 1];
      FillConcat(m, ds, es[..|es| - 1]);
    }
  }

  /** Writing back what is there changes nothing. */
  lemma PutSame(m: Fields, k: string)
    requires k in m
    ensures m[k := m[k]] == m
  {
  }

  predicate SameAt(m: Fields, r: Fields, k: string) {
    (k in r <==> k in m) && (k in m ==> r[k] == m[k])
  }

  // ---------------------------------------------------------------- what an edit may do to a tree

  /** What may be edited at a place of a tree, and below it. */
  datatype Edit =
    | Kept
    | Text
    | Whole
    | Free
    | Into(edits: map<string, Edit>, drop: set<string>)
    | Each(edit: Edit)

  /** A value an edit may make where there was none: a string, an object, or, at `Kept` and `Free`, anything. */
  ghost predicate Made(e: Edit, v: Json)
    decreases e
  {
    match e
    case Kept => true
    case Free => true
    case Text => v.Str?
    case Whole => v.Obj?
    case Each(_) => false
    case Into(edits, _) => v.Obj? && forall k | k in v.fields :: k in edits && Made(edits[k], v.fields[k])
  }

  /** `after` is `before` but for the edits allowed: a value stays as it is, or
      - at `Text`, becomes a string where it was none; at `Whole`, an object where it was none; at `Free`, anything;
      - at `Into`, is an object, with the keys of the object it was, each edited as its own edit says and all others
        as they were, save keys of `drop`, which may go; new keys are made as their edits say;
      - at `Each`, is an array of the same length, with objects edited and other elements as they were. */
  ghost predicate Follows(e: Edit, before: Json, after: Json)
    decreases e
  {
    || before == after
    || (e.Text? && !before.Str? && after.Str?)
    || (e.Whole? && !before.Obj? && after.Obj?)
    || e.Free?
    || (e.Into? && after.Obj? &&
        var m := if before.Obj? then before.fields else map[];
        && (forall k | k in m && k !in e.drop :: k in after.fields)
        && (forall k | k in m && k in after.fields ::
              if k in e.edits then Follows(e.edits[k], m[k], after.fields[k]) else m[k] == after.fields[k])
        && (forall k | k in after.fields && k !in m :: k in e.edits && Made(e.edits[k], after.fields[k])))
    || (e.Each? && before.Arr? && after.Arr? && |before.elems| == |after.elems| &&
        forall i | 0 <= i < |before.elems| ::
          if before.elems[i].Obj? then after.elems[i].Obj? && Follows(e.edit, before.elems[i], after.elems[i])
          else before.elems[i] == after.elems[i])
  }

  /** Names all of which may become strings. */
  function Texts(ds: seq<(string, string)>): map<string, Edit> {
    map i | 0 <= i < |ds| :: ds[i].0 := Text
  }

  lemma TextsAre(ds: seq<(string, string)>, k: string)
    ensures k in Texts(ds) <==> Names(ds, k)
    ensures k in Texts(ds) ==> Texts(ds)[k] == Text
  {
  }

  /** One key of an object that is filled with defaults. */
  lemma FillFollowsAt(m: Fields, ds: seq<(string, string)>, k: string)
    ensures k in m ==> k in Fill(m, ds) && Follows(if Names(ds, k) then Text else Kept, m[k], Fill(m, ds)[k])
    ensures k in Fill(m, ds) && k !in m ==> Names(ds, k) && Fill(m, ds)[k].Str?
  {
    FillMeaning(m, ds, k);
  }

  /** Filling edits the names it fills, all of which are among the allowed ones. */
  lemma FillFollows(m: Fields, ds: seq<(string, string)>, allowed: seq<(string, string)>)
    requires forall i | 0 <= i < |ds| :: Names(allowed, ds[i].0)
    ensures Follows(Into(Texts(allowed), {}), Obj(m), Obj(Fill(m, ds)))
  {
    var r := Fill(m, ds);
    forall k | k in m
      ensures k in r && (if k in Texts(allowed) then Follows(Texts(allowed)[k], m[k], r[k]) else m[k] == r[k])
    {
      FillFollowsAt(m, ds, k);
      TextsAre(allowed, k);
    }
    forall k | k in r && k !in m ensures k in Texts(allowed) && Made(Texts(allowed)[k], r[k]) {
      FillFollowsAt(m, ds, k);
      TextsAre(allowed, k);
    }
  }

  /** An edit of the object under a key, made where there was none, and nothing else. */
  lemma PutFollows(m: Fields, k: string, sub: Fields, e: Edit)
    requires e.Into? && Follows(e, Obj(ObjAt(m, k)), Obj(sub))
    ensures k in m ==> Follows(e, m[k], Obj(sub))
    ensures k !in m ==> Made(e, Obj(sub))
  {
    if HasObj(m, k) {
      assert m[k] == Obj(ObjAt(m, k));
    } else {
      assert ObjAt(m, k) == map[];
    }
  }

  /** What one key of an edited object may become. */
  ghost predicate KeyFollows(edits: map<string, Edit>, m: Fields, r: Fields, k: string) {
    && (k in m && k in r ==> if k in edits then Follows(edits[k], m[k], r[k]) else m[k] == r[k])
    && (k in r && k !in m ==> k in edits && Made(edits[k], r[k]))
  }

  lemma IntoFollows(m: Fields, r: Fields, edits: map<string, Edit>, drop: set<string>)
    requires forall k | k in m && k !in drop :: k in r
    requires forall k :: KeyFollows(edits, m, r, k)
    ensures Follows(Into(edits, drop), Obj(m), Obj(r))
  {
    forall k | k in m && k in r ensures if k in edits then Follows(edits[k], m[k], r[k]) else m[k] == r[k] {
      assert KeyFollows(edits, m, r, k);
    }
    forall k | k in r && k !in m ensures k in edits && Made(edits[k], r[k]) {
      assert KeyFollows(edits, m, r, k);
    }
  }

  /** A value that may be put under a key. */
  ghost predicate MayPut(m: Fields, k: string, v: Json, e: Edit) {
    if k in m then Follows(e, m[k], v) else Made(e, v)
  }

  /** Putting one value, and then dropping keys. */
  lemma PutOne(m: Fields, k: string, v: Json, edits: map<string, Edit>, drop: set<string>)
    requires k in edits && k !in drop && MayPut(m, k, v, edits[k])
    ensures Follows(Into(edits, drop), Obj(m), Obj(m[k := v] - drop))
  {
    var r := m[k := v] - drop;
    forall j ensures KeyFollows(edits, m, r, j) {
      if j in edits && j != k && j in m {
        assert Follows(edits[j], m[j], m[j]);
      }
    }
    IntoFollows(m, r, edits, drop);
  }

  lemma PutTwo(m: Fields, k1: string, v1: Json, k2: string, v2: Json, edits: map<string, Edit>)
    requires k1 != k2 && k1 in edits && k2 in edits
    requires MayPut(m, k1, v1, edits[k1]) && MayPut(m, k2, v2, edits[k2])
    ensures Follows(Into(edits, {}), Obj(m), Obj(m[k1 := v1][k2 := v2]))
  {
    var r := m[k1 := v1][k2 := v2];
    forall j ensures KeyFollows(edits, m, r, j) {
      if j in edits && j != k1 && j != k2 && j in m {
        assert Follows(edits[j], m[j], m[j]);
      }
    }
    IntoFollows(m, r, edits, {});
  }

  /** A default as a value put. */
  lemma DefaultIsPut(m: Fields, k: string, v: string)
    ensures k in Default(m, k, v) && Default(m, k, v) == m[k := Default(m, k, v)[k]]
    ensures MayPut(m, k, Default(m, k, v)[k], Text)
  {
  }
}
