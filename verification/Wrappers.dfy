/** Options stand for NaN, for a missing value and for an absent argument. */
module Wrappers {

  datatype Option<+T> = None | Some(value: T)

  function AbsReal(x: real): (r: real)
    ensures r >= 0.0 && (r == x || r == -x)
  {
    if x < 0.0 then -x else x
  }

  function MaxInt(a: int, b: int): (r: int)
    ensures r >= a && r >= b && (r == a || r == b)
  {
    if a < b then b else a
  }

  lemma Cancel(x: real, y: real, p: real)
    requires p != 0.0 && x * p == y * p
    ensures x == y
  {
    assert (x - y) * p == 0.0;
  }

  lemma AbsTimes(x: real, y: real)
    ensures AbsReal(x * y) == AbsReal(x) * AbsReal(y)
  {
    if x >= 0.0 && y >= 0.0 { assert x * y >= 0.0; }
    if x >= 0.0 && y < 0.0 { assert x * -y >= 0.0; }
    if x < 0.0 && y >= 0.0 { assert -x * y >= 0.0; }
    if x < 0.0 && y < 0.0 { assert -x * -y >= 0.0; }
  }
}
