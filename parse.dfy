/** sump2/ops/parse.py: splitting captured samples into named fields. A
    field is a run of bits `(start, length)` or a single bit index. */
module Parse {
  import opened Common

  /** What a settings entry can be: a tuple or list of integers, a dict
      (reserved for complex unpacking), or a single bit index. */
  datatype Spec = Items(items: seq<int>) | DictSpec | Index(index: int)

  /** `unpack(data, spec)` on one sample. With `(start, length)`: a
      negative `start` makes `>>` raise ValueError, and a negative
      `length` makes `2 ** length - 1` a float, which `&` refuses with
      TypeError. */
  function Unpack(data: int, spec: Spec): Result<int>
  {
    match spec
    case Items(items) =>
      if |items| != 2 then Err(ValueError)
      else if items[0] < 0 then Err(ValueError)
      else if items[1] < 0 then Err(TypeError)
      else Ok(And(Shr(data, items[0]), Pow2(items[1]) - 1))
    case DictSpec => Err(NotImplementedError)
    case Index(i) =>
      if i < 0 then Err(ValueError) else Ok(And(Shr(data, i), 1))
  }

  /** The exception a spec makes `unpack` raise, whatever the data. */
  function SpecError(spec: Spec): Option<Error>
  {
    match spec
    case Items(items) =>
      if |items| != 2 then Some(ValueError)
      else if items[0] < 0 then Some(ValueError)
      else if items[1] < 0 then Some(TypeError)
      else None
    case DictSpec => Some(NotImplementedError)
    case Index(i) => if i < 0 then Some(ValueError) else None
  }

  /** Whether `unpack` raises depends on the spec alone, and it raises
      exactly the exception `SpecError` names. */
  lemma UnpackErrors(data: int, spec: Spec)
    ensures Unpack(data, spec).Err? <==> SpecError(spec).Some?
    ensures Unpack(data, spec).Err? ==> Unpack(data, spec).error == SpecError(spec).value
    ensures spec.Items? && |spec.items| != 2 ==> Unpack(data, spec) == Err(ValueError)
    ensures spec.DictSpec? ==> Unpack(data, spec) == Err(NotImplementedError)
  {
  }

  /** `(start, length)` gives bits `start .. start + length - 1` of the
      sample: `(data >> start) mod 2^length`, so always in
      `[0, 2^length)`, for negative samples too. */
  lemma UnpackField(data: int, start: nat, length: nat)
    ensures Unpack(data, Items([start, length])) == Ok((data / Pow2(start)) % Pow2(length))
    ensures 0 <= Unpack(data, Items([start, length])).value < Pow2(length)
  {
    AndLowMask(Shr(data, start), length);
  }

  /** A bit index gives that bit of the sample, 0 or 1. */
  lemma UnpackBit(data: int, i: nat)
    ensures Unpack(data, Index(i)) == Ok(Bit(data, i))
    ensures Unpack(data, Index(i)).value == 0 || Unpack(data, Index(i)).value == 1
  {
    AndLowMask(Shr(data, i), 1);
    assert Pow2(1) == 2 by {
      assert Pow2(0) == 1;
    }
  }

  /** The digit `v` of `low + v * p + high * (p * q)` in the mixed radix
      `p`, `q`. */
  lemma MiddleDigit(p: int, q: int, v: int, low: int, high: int)
    requires p > 0 && q > 0 && 0 <= v < q && 0 <= low < p
    ensures ((low + v * p + high * (p * q)) / p) % q == v
  {
    var m := v + high * q;
    assert p * m == v * p + high * (p * q);
    DivUnique(low + v * p + high * (p * q), p, m, low);
    DivUnique(m, q, high, v);
  }

  /** A field placed at bit `start` between any lower bits `low` and any
      higher bits `high` is read back unchanged. */
  lemma FieldRoundTrip(v: int, start: nat, length: nat, low: int, high: int)
    requires 0 <= v < Pow2(length) && 0 <= low < Pow2(start)
    ensures Unpack(low + v * Pow2(start) + high * Pow2(start + length), Items([start, length])) == Ok(v)
  {
    Pow2Add(start, length);
    MiddleDigit(Pow2(start), Pow2(length), v, low, high);
    UnpackField(low + v * Pow2(start) + high * Pow2(start + length), start, length);
  }

  /** `unpack(c, spec)` over a whole capture, sample by sample on Python
      integers: the spec's exception, or the field of every sample. (On
      numpy's int64 array a negative shift does not raise.) */
  function Column(capture: seq<int>, spec: Spec): (r: Result<seq<int>>)
    ensures r.Err? <==> SpecError(spec).Some?
    ensures r.Err? ==> r.error == SpecError(spec).value
    ensures r.Ok? ==> |r.value| == |capture|
    ensures r.Ok? ==> forall i :: 0 <= i < |capture| ==> Unpack(capture[i], spec) == Ok(r.value[i])
  {
    match SpecError(spec)
    case Some(e) => Err(e)
    case None =>
      var col := seq(|capture|, i requires 0 <= i < |capture| => Unpack(capture[i], spec).value);
      assert forall i :: 0 <= i < |capture| ==> Unpack(capture[i], spec).Ok? by {
        forall i | 0 <= i < |capture|
          ensures Unpack(capture[i], spec).Ok?
        {
          UnpackErrors(capture[i], spec);
        }
      }
      Ok(col)
  }

  /** The caller's settings dictionary, which `parse` updates in place. */
  class SpecTable {
    var entries: map<string, Spec>

    constructor (entries: map<string, Spec>)
      ensures this.entries == entries
    {
      this.entries := entries;
    }

    /** `settings.update(kwargs)`. */
    method Update(kwargs: map<string, Spec>)
      modifies this
      ensures entries == old(entries) + kwargs
    {
      entries := entries + kwargs;
    }
  }

  /** `parse(capture, settings, **kwargs)`: the keyword specs merged into
      the caller's dictionary (a new one when none is given), then one
      column per key in the dictionary's own order. A bad spec raises its
      exception; which of several bad keys raises depends on that order. */
  method Parse(capture: seq<int>, settings: SpecTable?, kwargs: map<string, Spec>)
    returns (table: SpecTable, r: Result<map<string, seq<int>>>)
    modifies settings
    ensures settings != null ==> table == settings && settings.entries == old(settings.entries) + kwargs
    ensures settings == null ==> fresh(table) && table.entries == kwargs
    ensures r.Err? <==> exists k :: k in table.entries && SpecError(table.entries[k]).Some?
    ensures r.Err? ==> exists k :: k in table.entries && SpecError(table.entries[k]) == Some(r.error)
    ensures r.Ok? ==> r.value.Keys == table.entries.Keys
    ensures r.Ok? ==> forall k :: k in r.value ==> Column(capture, table.entries[k]) == Ok(r.value[k])
  {
    if settings == null {
      table := new SpecTable(map[]);
    } else {
      table := settings;
    }
    table.Update(kwargs);
    r := Columns(capture, table.entries);
  }

  /** `for k in settings: r[k] = unpack(c, settings[k])`. */
  method Columns(capture: seq<int>, specs: map<string, Spec>) returns (r: Result<map<string, seq<int>>>)
    ensures r.Err? <==> exists k :: k in specs && SpecError(specs[k]).Some?
    ensures r.Err? ==> exists k :: k in specs && SpecError(specs[k]) == Some(r.error)
    ensures r.Ok? ==> r.value.Keys == specs.Keys
    ensures r.Ok? ==> forall k :: k in r.value ==> Column(capture, specs[k]) == Ok(r.value[k])
  {
    var cols: map<string, seq<int>> := map[];
    var keys := specs.Keys;
    while keys != {}
      invariant keys <= specs.Keys
      invariant cols.Keys == specs.Keys - keys
      invariant forall k :: k in cols ==> Column(capture, specs[k]) == Ok(cols[k])
      decreases keys
    {
      var k :| k in keys;
      var col := Column(capture, specs[k]);
      if col.Err? {
        return Err(col.error);
      }
      cols := cols[k := col.value];
      keys := keys - {k};
    }
    return Ok(cols);
  }
}
