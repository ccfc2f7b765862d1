/** What several of the models share. */
module Basics {
  type Byte = bv8

  datatype Option<+T> = None | Some(value: T)

  /** A failed AKCHECK stops the program. */
  datatype Result<+T> = Ok(value: T) | Stopped

  function Min(a: int, b: int): (m: int)
    ensures m <= a && m <= b && (m == a || m == b)
  {
    if a <= b then a else b
  }

  /** A measure in which any one of `moves` outweighs up to `most` units of work. */
  function Weigh(moves: nat, most: nat, works: nat): nat {
    Product(moves, most + 1) + works
  }

  function Product(a: nat, b: nat): nat {
    if a == 0 then 0 else Product(a - 1, b) + b
  }

  lemma {:induction false} ProductIs(a: nat, b: nat)
    ensures Product(a, b) == a * b
  {
    if a > 0 {
      ProductIs(a - 1, b);
      assert a * b == (a - 1) * b + b;
    }
  }

  lemma {:induction false} ProductGrows(a: nat, b: nat, c: nat)
    requires a <= b
    ensures Product(a, c) <= Product(b, c)
  {
    if a < b {
      ProductGrows(a, b - 1, c);
    }
  }

  /** One move less is less, whatever becomes of the work. */
  lemma OneMoveLess(moves: nat, moves': nat, most: nat, works: nat, works': nat)
    requires moves' < moves && works' <= most
    ensures Weigh(moves', most, works') < Weigh(moves, most, works)
  {
    ProductGrows(moves' + 1, moves, most + 1);
  }
}
