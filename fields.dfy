/**
 * Field values, their normalisation, and the merge of an entry's field layers
 * into the flat mapping that a log record carries (`mergeFields` and
 * `appendFields` in src/index.ts).
 *
 * The JSON encoder is not modelled: a value that the source replaces by
 * `JSON.stringify(x)` is represented here by the term `Encoded(x)`, read as
 * "the JSON text of x".  Every property below therefore holds for any encoder.
 */
module Fields {
  import opened Wrappers

  /** A value whose `typeof` is not 'object': it is stored unchanged. */
  datatype Primitive = Str(s: string) | Num(n: int) | Bool(b: bool) | Undefined

  /** Plain data reachable from an object (or an HTTP response body). */
  datatype Data =
    | Null
    | Scalar(p: Primitive)
    | Array(items: seq<Data>)
    | Object(members: map<string, Data>)

  /** The response an HTTP-client error carries; only its `data` is used. */
  datatype Response = Response(data: Data)

  /**
   * A field value as a caller hands it over.
   *  - `Prim`: a primitive.
   *  - `Obj`: anything whose `typeof` is 'object' and that is not an Error;
   *    `Obj(Null)` is JavaScript's `null`, which takes this branch too.
   *  - `Err`: an `Error` instance.  `text` is its string conversion
   *    (`${err}`), `stack` its possibly missing stack, `isAxiosError` whether
   *    the HTTP-client marker is truthy, `response` the response when it is
   *    truthy.
   */
  datatype Value =
    | Prim(p: Primitive)
    | Obj(o: Data)
    | Err(text: string, stack: Option<string>, isAxiosError: bool, response: Option<Response>)

  /** What the source hands to `JSON.stringify` for a non-primitive field. */
  datatype Doc =
    | ErrorData(message: string, stack: string, body: Option<Data>)
    | ObjectData(o: Data)

  /** A field value as it appears in a finalized record. */
  datatype FieldValue = Plain(p: Primitive) | Encoded(doc: Doc)

  /** One `withField(s)` call's worth of fields. */
  type Layer = map<string, Value>

  /** The flat, normalised mapping a record carries. */
  type Merged = map<string, FieldValue>

  /**
   * Normalisation of one field value.  The Error test comes first, so an
   * Error (which is also an object) is never encoded as a plain object; the
   * HTTP-client refinement only adds `body` to an Error's data.
   */
  function Normalize(v: Value): (r: FieldValue)
    ensures r.Plain? <==> v.Prim?
    ensures v.Prim? ==> r.p == v.p
    ensures v.Obj? ==> r == Encoded(ObjectData(v.o))
    ensures v.Err? ==> r.Encoded? && r.doc.ErrorData?
    ensures v.Err? ==> r.doc.message == v.text && r.doc.stack == v.stack.GetOr("")
    ensures v.Err? ==> (r.doc.body.Some? <==> v.isAxiosError && v.response.Some?)
    ensures v.Err? && r.doc.body.Some? ==> r.doc.body.value == v.response.value.data
  {
    match v
    case Err(text, stack, isAxiosError, response) =>
      var body := if isAxiosError && response.Some? then Some(response.value.data) else None;
      Encoded(ErrorData(text, stack.GetOr(""), body))
    case Obj(o) => Encoded(ObjectData(o))
    case Prim(p) => Plain(p)
  }

  /** An Error's `response` is ignored unless the HTTP-client marker is set. */
  lemma ResponseIgnoredWithoutMarker(text: string, stack: Option<string>, r1: Option<Response>, r2: Option<Response>)
    ensures Normalize(Err(text, stack, false, r1)) == Normalize(Err(text, stack, false, r2))
  {
  }

  /**
   * The one key that assigning into a plain `{}` never creates: a write to
   * `__proto__` goes to the inherited setter, which ignores the strings and
   * primitives that normalisation produces.
   */
  const ProtoKey: string := "__proto__"

  /** Every value of a layer, normalised, as the accumulator can hold them. */
  function NormalizeLayer(source: Layer): (r: Merged)
    ensures r.Keys == source.Keys - {ProtoKey}
    ensures forall k :: k in r ==> r[k] == Normalize(source[k])
  {
    map k | k in source && k != ProtoKey :: Normalize(source[k])
  }

  /**
   * `appendFields(source, destination)` as a value: the destination after
   * every key of the source has been written into it.
   */
  function Append(source: Layer, destination: Merged): (r: Merged)
    ensures r.Keys == destination.Keys + (source.Keys - {ProtoKey})
    ensures forall k :: k in source && k != ProtoKey ==> r[k] == Normalize(source[k])
    ensures forall k :: k in destination && (k !in source || k == ProtoKey) ==> r[k] == destination[k]
  {
    destination + NormalizeLayer(source)
  }

  /**
   * `mergeFields(layers)` as a value: a left fold of `Append` over the
   * layers, starting from the empty mapping.
   */
  function Merge(layers: seq<Layer>): Merged
    decreases |layers|
  {
    if layers == [] then map[]
    else Append(layers[|layers| - 1], Merge(layers[..|layers| - 1]))
  }

  /** Every key some layer defines. */
  ghost function KeysOf(layers: seq<Layer>): set<string>
  {
    set i, k | 0 <= i < |layers| && k in layers[i] :: k
  }

  /**
   * Reference definition of which layer decides a key: the last one that
   * contains it.
   */
  function LastLayerWith(layers: seq<Layer>, key: string): (r: Option<nat>)
    ensures r.Some? ==> r.value < |layers| && key in layers[r.value]
    ensures r.Some? ==> forall j :: r.value < j < |layers| ==> key !in layers[j]
    ensures r.None? <==> forall j :: 0 <= j < |layers| ==> key !in layers[j]
    decreases |layers|
  {
    if layers == [] then None
    else if key in layers[|layers| - 1] then Some(|layers| - 1)
    else LastLayerWith(layers[..|layers| - 1], key)
  }

  /**
   * Merging no layers gives no fields; otherwise the keys are the union of
   * all layers' keys, less `__proto__`.
   */
  lemma {:induction false} MergeKeys(layers: seq<Layer>)
    ensures Merge(layers).Keys == KeysOf(layers) - {ProtoKey}
    ensures layers == [] ==> Merge(layers) == map[]
    decreases |layers|
  {
    if layers != [] {
      var init := layers[..|layers| - 1];
      var last := layers[|layers| - 1];
      MergeKeys(init);
      forall k | k in KeysOf(layers) ensures k in KeysOf(init) + last.Keys {
        var i :| 0 <= i < |layers| && k in layers[i];
        if i < |init| {
          assert init[i] == layers[i];
        }
      }
      forall k | k in KeysOf(init) + last.Keys ensures k in KeysOf(layers) {
        if k in KeysOf(init) {
          var i :| 0 <= i < |init| && k in init[i];
          assert layers[i] == init[i];
        } else {
          assert k in layers[|layers| - 1];
        }
      }
    }
  }

  /**
   * Last writer wins: a key other than `__proto__` is present exactly when
   * some layer has it, and its merged value is the normalisation of the
   * value in the last such layer.
   */
  lemma {:induction false} MergeLastWriterWins(layers: seq<Layer>, key: string)
    ensures key in Merge(layers) <==> key != ProtoKey && LastLayerWith(layers, key).Some?
    ensures key in Merge(layers) ==>
      Merge(layers)[key] == Normalize(layers[LastLayerWith(layers, key).value][key])
    decreases |layers|
  {
    if layers != [] {
      var init := layers[..|layers| - 1];
      MergeLastWriterWins(init, key);
      if key !in layers[|layers| - 1] {
        var r := LastLayerWith(init, key);
        if r.Some? {
          assert layers[r.value] == init[r.value];
        }
      }
    }
  }

  /**
   * Merging a concatenation is merging each part and letting the later part
   * override the earlier one: chaining layers and merging commute.
   */
  lemma {:induction false} MergeConcat(front: seq<Layer>, back: seq<Layer>)
    ensures Merge(front + back) == Merge(front) + Merge(back)
    decreases |back|
  {
    if back == [] {
      assert front + back == front;
    } else {
      var init := back[..|back| - 1];
      var last := back[|back| - 1];
      assert (front + back)[..|front + back| - 1] == front + init;
      assert (front + back)[|front + back| - 1] == last;
      MergeConcat(front, init);
      assert Merge(front + back) == Merge(front + init) + NormalizeLayer(last);
      assert Merge(back) == Merge(init) + NormalizeLayer(last);
      UnionAssociative(Merge(front), Merge(init), NormalizeLayer(last));
    }
  }

  /** Right-biased map union is associative. */
  lemma UnionAssociative(a: Merged, b: Merged, c: Merged)
    ensures (a + b) + c == a + (b + c)
  {
  }

  /**
   * `appendFields`: writes every key of `source` into the accumulator,
   * classifying each value on the way.  Keys are taken in an arbitrary order,
   * so the result does not depend on the order `Object.keys` reports them in.
   */
  method AppendFields(source: Layer, destination: Merged) returns (r: Merged)
    ensures r == Append(source, destination)
  {
    r := destination;
    var pending := source.Keys;
    while pending != {}
      invariant pending <= source.Keys
      invariant r.Keys == destination.Keys + (source.Keys - pending - {ProtoKey})
      invariant forall k :: k in source && k !in pending && k != ProtoKey ==> r[k] == Normalize(source[k])
      invariant forall k :: k in destination && (k !in source || k in pending || k == ProtoKey) ==>
        r[k] == destination[k]
      decreases pending
    {
      var key :| key in pending;
      if key != ProtoKey {
        r := r[key := Normalize(source[key])];
      }
      pending := pending - {key};
    }
  }

  /** `mergeFields`: folds the layers, first to last, into one accumulator. */
  method MergeFields(layers: seq<Layer>) returns (allFields: Merged)
    ensures allFields == Merge(layers)
  {
    allFields := map[];
    var i := 0;
    while i < |layers|
      invariant 0 <= i <= |layers|
      invariant allFields == Merge(layers[..i])
    {
      assert layers[..i + 1][..i] == layers[..i];
      allFields := AppendFields(layers[i], allFields);
      i := i + 1;
    }
    assert layers[..i] == layers;
  }
}
