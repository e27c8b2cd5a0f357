/** A JavaScript `Record<string, number>` built by the report folds: its
    keys in insertion order (the order `Object.keys` reports for non-numeric
    keys), each key once. */
module Record {

  type Dict = seq<(string, int)>

  function Keys(d: Dict): seq<string>
  {
    if d == [] then [] else [d[0].0] + Keys(d[1..])
  }

  /** Each key occurs once, as in a JavaScript object. */
  predicate UniqueKeys(d: Dict)
  {
    d == [] || (d[0].0 !in Keys(d[1..]) && UniqueKeys(d[1..]))
  }

  /** `d[k] || 0`: the value under `k`, or 0 when there is none. */
  function Get(d: Dict, k: string): (v: int)
    ensures k !in Keys(d) ==> v == 0
  {
    if d == [] then 0 else if d[0].0 == k then d[0].1 else Get(d[1..], k)
  }

  /** The sum of `Object.values(d)`. */
  function SumValues(d: Dict): int
  {
    if d == [] then 0 else d[0].1 + SumValues(d[1..])
  }

  /** `d[k] = v`: overwrites the value of an existing key in its place, or
      adds the key at the end. */
  function Assign(d: Dict, k: string, v: int): (r: Dict)
    ensures Keys(r) == if k in Keys(d) then Keys(d) else Keys(d) + [k]
    ensures Get(r, k) == v
    ensures forall j :: j != k ==> Get(r, j) == Get(d, j)
    ensures UniqueKeys(d) ==> UniqueKeys(r)
    ensures UniqueKeys(d) ==> SumValues(r) == SumValues(d) - Get(d, k) + v
  {
    if d == [] then [(k, v)]
    else if d[0].0 == k then [(k, v)] + d[1..]
    else [d[0]] + Assign(d[1..], k, v)
  }

  /** `acc[k] = (acc[k] || 0) + amount`, the step of both report folds. */
  function AddTo(d: Dict, k: string, amount: int): (r: Dict)
    ensures Keys(r) == if k in Keys(d) then Keys(d) else Keys(d) + [k]
    ensures Get(r, k) == Get(d, k) + amount
    ensures forall j :: j != k ==> Get(r, j) == Get(d, j)
    ensures UniqueKeys(d) ==> UniqueKeys(r) && SumValues(r) == SumValues(d) + amount
  {
    Assign(d, k, Get(d, k) + amount)
  }
}
