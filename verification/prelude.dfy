/** Types shared by every module of the project. */
module Prelude {

  datatype Option<+T> = None | Some(value: T)

  datatype Result<+T, +E> = Ok(value: T) | Err(error: E)

  predicate Above(m: set<nat>, x: nat) { forall y :: y in m ==> y < x }

  /** There is always an identifier that was never used. */
  lemma {:induction false} OutsideExists(m: set<nat>)
    ensures exists x :: Above(m, x)
  {
    if m == {} {
      assert Above(m, 0);
    } else {
      var z :| z in m;
      OutsideExists(m - {z});
      var x :| Above(m - {z}, x);
      assert forall y :: y in m ==> y == z || y in m - {z};
      assert Above(m, x + z + 1);
    }
  }

  /** What str.strip() strips. */
  predicate IsBlank(c: char) {
    || '\U{9}' <= c <= '\U{D}' || '\U{1C}' <= c <= ' ' || c == '\U{85}' || c == '\U{A0}' || c == '\U{1680}'
    || '\U{2000}' <= c <= '\U{200A}' || c == '\U{2028}' || c == '\U{2029}' || c == '\U{202F}' || c == '\U{205F}'
    || c == '\U{3000}'
  }

  predicate AllBlank(s: string) { forall i :: 0 <= i < |s| ==> IsBlank(s[i]) }
}
