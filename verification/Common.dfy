/** Datatypes and arithmetic shared by the modules of the project. */
module Common {
  datatype Option<+T> = None | Some(value: T)

  lemma MulMono(a: nat, b: nat, c: nat)
    requires a <= b
    ensures a * c <= b * c
  {
  }

  lemma Quotient(q: nat, w: nat, r: nat)
    requires r < w
    ensures (q * w + r) / w == q && (q * w + r) % w == r
  {
    var n := q * w + r;
    assert n == (n / w) * w + n % w;
    if n / w < q {
      MulMono(n / w + 1, q, w);
    } else if q < n / w {
      MulMono(q + 1, n / w, w);
    }
  }
}
