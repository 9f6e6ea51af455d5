/**
 * The parts of Go's run-time behaviour that the façade's code depends on:
 * writes into a nil map panic, `for k, v := range src` visits keys in an
 * unspecified order, signed integer division truncates toward zero, and
 * `1 << n` is a power of two.
 */
module GoRuntime {
  import opened Wrappers

  /** A Go `map[string]string` value: the zero value nil, or an allocated map. */
  datatype StringMap = Nil | Allocated(entries: map<string, string>)

  /** What a reader sees: ranging over or indexing a nil map behaves like an empty map. */
  function Entries(m: StringMap): map<string, string>
  {
    if m.Nil? then map[] else m.entries
  }

  /** `m[k] = v`; `None` stands for the run-time panic "assignment to entry in nil map". */
  function Store(m: StringMap, k: string, v: string): (r: Option<StringMap>)
    ensures r.None? <==> m.Nil?
    ensures r.Some? ==> r.value.Allocated? && r.value.entries.Keys == m.entries.Keys + {k}
    ensures r.Some? ==> r.value.entries[k] == v
    ensures r.Some? ==> forall j :: j in m.entries && j != k ==> r.value.entries[j] == m.entries[j]
  {
    if m.Nil? then None else Some(Allocated(m.entries[k := v]))
  }

  /**
   * `for k, v := range src { dst[k] = v }`. The keys of `src` are visited in
   * an order the program does not choose. `None` is the panic of the first
   * write when `dst` is nil; otherwise every entry of `src` wins over the
   * entry of `dst` with the same key.
   */
  method StoreAll(dst: StringMap, src: map<string, string>) returns (r: Option<StringMap>)
    ensures r.None? <==> dst.Nil? && src != map[]
    ensures r.Some? ==> r.value.Nil? == dst.Nil?
    ensures r.Some? ==> Entries(r.value).Keys == Entries(dst).Keys + src.Keys
    ensures r.Some? ==> forall k :: k in src ==> Entries(r.value)[k] == src[k]
    ensures r.Some? ==> forall k :: k in Entries(dst) && k !in src ==> Entries(r.value)[k] == Entries(dst)[k]
  {
    var pending := src.Keys;
    r := Some(dst);
    while pending != {}
      invariant pending <= src.Keys
      invariant r.Some? && r.value.Nil? == dst.Nil?
      invariant r.value.Nil? ==> pending == src.Keys
      invariant Entries(r.value).Keys == Entries(dst).Keys + (src.Keys - pending)
      invariant forall k :: k in src.Keys - pending ==> Entries(r.value)[k] == src[k]
      invariant forall k :: k in Entries(dst) && k !in src.Keys - pending ==> Entries(r.value)[k] == Entries(dst)[k]
      decreases pending
    {
      var k :| k in pending;
      var stored := Store(r.value, k, src[k]);
      if stored.None? {
        assert src.Keys != {};
        return None;
      }
      r := stored;
      pending := pending - {k};
    }
  }

  /** Go's `a / b` for a positive divisor: the quotient truncated toward zero. */
  function Quo(a: int, b: int): (q: int)
    requires b > 0
    ensures a >= 0 ==> 0 <= q && q * b <= a < q * b + b
    ensures a < 0 ==> q <= 0 && q * b - b < a <= q * b
  {
    if a >= 0 then
      var q := a / b;
      assert q * b + a % b == a && 0 <= a % b < b;
      q
    else
      var q := (-a) / b;
      assert q * b + (-a) % b == -a && 0 <= (-a) % b < b;
      -q
  }

  /** The value of `1 << n`; it exceeds `n`. */
  function Shl1(n: nat): (p: nat)
    ensures p > n
  {
    if n == 0 then 1 else 2 * Shl1(n - 1)
  }

  /** A wider shift gives a value no smaller. */
  lemma {:induction false} Shl1Monotone(m: nat, n: nat)
    requires m <= n
    ensures Shl1(m) <= Shl1(n)
    decreases n
  {
    if m < n {
      Shl1Monotone(m, n - 1);
    }
  }
}
