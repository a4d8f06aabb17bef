/** `copySign`: gives `n` the sign of `sign`, as decided by `Math.sign`. */
module CopySign {
  import opened Numbers

  function CopySign(n: real, sign: real): (r: real)
    // the magnitude is never changed
    ensures r == n || r == -n
    ensures Abs(r) == Abs(n)
    // matching signs leave n alone
    ensures Sign(n) == Sign(sign) ==> r == n
    // otherwise the result carries the sign of `sign` ...
    ensures n != 0.0 && sign != 0.0 ==> Sign(r) == Sign(sign)
    // ... except that a zero `sign` flips a non-zero n instead of zeroing it
    ensures n != 0.0 && sign == 0.0 ==> r == -n
    ensures n == 0.0 ==> r == 0.0
  {
    if Sign(n) == Sign(sign) then n else -n
  }
}
