/**
 * The requirements report both material calculators build: a map from
 * (material id, colour id) to an accumulated quantity in stored units, into which every
 * contribution is added with `+=`, the key being created at 0.0 on first use.
 */
module Requirements {
  import opened Wrappers
  import opened Inventory

  /** `(material, cor)`; the colour is optional. */
  type Key = (nat, Option<nat>)

  /** One `report_data[key]['qtd'] += amount` step. */
  datatype Contribution = Contribution(key: Key, amount: real)

  /** The quantity recorded under a key, 0.0 when the key is absent. */
  function Get(m: map<Key, real>, k: Key): real {
    if k in m then m[k] else 0.0
  }

  /** Create the key at 0.0 when it is absent, then add the amount. */
  function Add(m: map<Key, real>, k: Key, amount: real): (r: map<Key, real>)
    ensures r.Keys == m.Keys + {k}
    ensures Get(r, k) == Get(m, k) + amount
    ensures forall j :: j != k ==> Get(r, j) == Get(m, j)
  {
    m[k := Get(m, k) + amount]
  }

  /** The report after the given contributions, applied in order, starting from `m`. */
  function Accumulate(m: map<Key, real>, cs: seq<Contribution>): map<Key, real> {
    if cs == [] then m
    else
      var last := cs[|cs| - 1];
      Add(Accumulate(m, cs[..|cs| - 1]), last.key, last.amount)
  }

  /** The total amount the contributions carry for one key. */
  function SumFor(cs: seq<Contribution>, k: Key): real {
    if cs == [] then 0.0
    else SumFor(cs[..|cs| - 1], k) + (if cs[|cs| - 1].key == k then cs[|cs| - 1].amount else 0.0)
  }

  /** The keys the contributions touch. */
  function KeysOf(cs: seq<Contribution>): set<Key> {
    set c | c in cs :: c.key
  }

  /** Applying two lists of contributions one after the other is applying their concatenation. */
  lemma {:induction false} AccumulateAppend(m: map<Key, real>, a: seq<Contribution>, b: seq<Contribution>)
    ensures Accumulate(m, a + b) == Accumulate(Accumulate(m, a), b)
    decreases |b|
  {
    if b == [] {
      assert a + b == a;
    } else {
      var front, last := b[..|b| - 1], b[|b| - 1];
      assert b == front + [last];
      assert a + b == (a + front) + [last];
      AccumulateAppend(m, a, front);
      AccumulateSnoc(m, a + front, last);
      AccumulateSnoc(Accumulate(m, a), front, last);
    }
  }

  lemma AccumulateSnoc(m: map<Key, real>, cs: seq<Contribution>, c: Contribution)
    ensures Accumulate(m, cs + [c]) == Add(Accumulate(m, cs), c.key, c.amount)
  {
    assert (cs + [c])[..|cs|] == cs;
  }

  /**
   * The meaning of the report: each key holds its starting quantity plus the sum of the
   * amounts contributed to it, and the keys are exactly the starting keys and the keys
   * contributed to.
   */
  lemma {:induction false} AccumulateMeaning(m: map<Key, real>, cs: seq<Contribution>, k: Key)
    ensures Get(Accumulate(m, cs), k) == Get(m, k) + SumFor(cs, k)
    ensures k in Accumulate(m, cs) <==> k in m || k in KeysOf(cs)
    decreases |cs|
  {
    if cs != [] {
      var front := cs[..|cs| - 1];
      AccumulateMeaning(m, front, k);
      assert KeysOf(cs) == KeysOf(front) + {cs[|cs| - 1].key} by {
        assert cs == front + [cs[|cs| - 1]];
      }
    }
  }

  /** The per-key sum over a concatenation is the sum of the per-key sums. */
  lemma {:induction false} SumForAppend(a: seq<Contribution>, b: seq<Contribution>, k: Key)
    ensures SumFor(a + b, k) == SumFor(a, k) + SumFor(b, k)
    decreases |b|
  {
    if b == [] {
      assert a + b == a;
    } else {
      var ab := a + b;
      assert ab[..|ab| - 1] == a + b[..|b| - 1];
      SumForAppend(a, b[..|b| - 1], k);
    }
  }

  /**
   * A report built from the concatenation of two contribution lists is their key-wise
   * sum, over the union of their keys: the report of several order lists is the sum of
   * their reports.
   */
  lemma Additive(a: seq<Contribution>, b: seq<Contribution>, k: Key)
    ensures Get(Accumulate(map[], a + b), k) == Get(Accumulate(map[], a), k) + Get(Accumulate(map[], b), k)
    ensures k in Accumulate(map[], a + b) <==> k in Accumulate(map[], a) || k in Accumulate(map[], b)
  {
    AccumulateMeaning(map[], a + b, k);
    AccumulateMeaning(map[], a, k);
    AccumulateMeaning(map[], b, k);
    SumForAppend(a, b, k);
    assert KeysOf(a + b) == KeysOf(a) + KeysOf(b);
  }

  /**
   * The order in which a dictionary filled by these contributions lists its keys: the
   * order in which the keys were first inserted.
   */
  function FirstKeys(cs: seq<Contribution>): seq<Key> {
    if cs == [] then []
    else
      var front := FirstKeys(cs[..|cs| - 1]);
      if cs[|cs| - 1].key in front then front else front + [cs[|cs| - 1].key]
  }

  predicate Distinct<T(==)>(s: seq<T>) {
    forall i, j :: 0 <= i < j < |s| ==> s[i] != s[j]
  }

  /** Iterating the report visits every key exactly once. */
  lemma {:induction false} FirstKeysEnumerate(cs: seq<Contribution>)
    ensures Distinct(FirstKeys(cs))
    ensures forall k :: k in FirstKeys(cs) <==> k in Accumulate(map[], cs)
    decreases |cs|
  {
    if cs != [] {
      var front := cs[..|cs| - 1];
      FirstKeysEnumerate(front);
      var last := cs[|cs| - 1];
      assert Accumulate(map[], cs).Keys == Accumulate(map[], front).Keys + {last.key};
    }
  }

  /** The body of the report update, as the code writes it: create at 0.0, then add. */
  method AddTo(report: map<Key, real>, k: Key, amount: real) returns (r: map<Key, real>)
    ensures r == Accumulate(report, [Contribution(k, amount)])
  {
    r := report;
    if k !in r {
      r := r[k := 0.0];
    }
    r := r[k := r[k] + amount];
    assert [Contribution(k, amount)][..0] == [];
  }

  /**
   * The unit block both calculators repeat: for a length unit, metres scale the quantity
   * by 1000 and centimetres by 10; any other quantity is kept.
   */
  method NormaliseQuantity(unidade: string, q: real) returns (v: real)
    ensures v == Normalised(unidade, q)
  {
    v := q;
    if IsUnidadeMedida(unidade) {
      var u := NormUnit(unidade);
      if IsMeterName(u) {
        v := v * 1000.0;
      } else if IsCentimeterName(u) {
        v := v * 10.0;
      }
    }
  }

  /**
   * The unit normalisation of the calculators: a quantity in a length unit is multiplied
   * by 1000 for the metre names and by 10 for the centimetre names; any other quantity is
   * kept.
   */
  function NormalisedByName(u: string, q: real): real {
    if IsLengthName(u) then
      if IsMeterName(u) then q * 1000.0 else if IsCentimeterName(u) then q * 10.0 else q
    else q
  }

  function Normalised(unidade: string, q: real): real {
    NormalisedByName(NormUnit(unidade), q)
  }

  /** The calculators' normalisation is the stock conversion `to_db_value` (zero included). */
  lemma NormalisedIsToDbByName(u: string, q: real)
    ensures NormalisedByName(u, q) == ToDbByName(u, q)
    ensures NormalisedByName(u, q) == q * NameFactor(u)
  {
    ScalingByName(u, q);
  }

  lemma NormalisedIsToDb(unidade: string, q: real)
    ensures Normalised(unidade, q) == ToDbValue(unidade, q)
  {
    NormalisedIsToDbByName(NormUnit(unidade), q);
  }
}
