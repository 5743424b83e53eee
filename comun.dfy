/** Types shared by every part of the back-office model: document ids, optional
    request fields, and the outcome of a handler (a value or an error kind). */
module Comun {

  /** Document ids. Every collection of the store is a sequence and a document's
      id is its position in it, which is also the database's natural order. */
  type Id = nat

  /** A request field or document field that may be absent (`undefined`). */
  datatype Option<+T> = None | Some(value: T) {
    function GetOr(default: T): T {
      match this
      case Some(v) => v
      case None => default
    }
  }

  /** The kinds of failure a handler reports. `ValidationError` is a document that
      the Mongoose schema rejects on save; `ServerError` is any other exception
      caught by a handler's `catch` block (for instance a null dereference). */
  datatype Error =
    | ValidationError
    | NotFound
    | InsufficientStock
    | InvalidTransfer
    | CreditLimitExceeded
    | InvalidPaymentAmount
    | RegisterAlreadyOpen
    | RegisterAlreadyClosed
    | NoOpenRegister
    | NotCreditSale
    | AlreadyPaid
    | CustomerHasDebt
    | ServerError

  datatype Result<+R> = Success(value: R) | Failure(error: Error)

  function Max(a: real, b: real): real {
    if a >= b then a else b
  }

  /** No element occurs twice. */
  predicate SinRepetidos<T(==)>(s: seq<T>) {
    forall i, j :: 0 <= i < j < |s| ==> s[i] != s[j]
  }

  /** Two sequences with the same elements, counted with multiplicity, agree on
      whether they repeat an element. */
  lemma {:induction false} SinRepetidosPorMultiset<T>(a: seq<T>, b: seq<T>)
    requires multiset(a) == multiset(b)
    requires SinRepetidos(b)
    ensures SinRepetidos(a)
  {
    forall i, j | 0 <= i < j < |a|
      ensures a[i] != a[j]
    {
      if a[i] == a[j] {
        var x := a[i];
        assert a == a[..j] + [a[j]] + a[j+1..];
        assert x in a[..j];
        assert multiset(a)[x] >= 2 by {
          calc {
            multiset(a)[x];
            multiset(a[..j])[x] + multiset([a[j]])[x] + multiset(a[j+1..])[x];
            >= multiset(a[..j])[x] + 1;
            >= 2;
          }
        }
        AlMenosDosRepite(b, x);
        assert false;
      }
    }
  }

  /** In a sequence without repetitions every element occurs at most once. */
  lemma {:induction false} AlMenosDosRepite<T>(b: seq<T>, x: T)
    requires SinRepetidos(b)
    ensures multiset(b)[x] <= 1
  {
    if b != [] {
      assert SinRepetidos(b[1..]) by {
        forall i, j | 0 <= i < j < |b[1..]| ensures b[1..][i] != b[1..][j] {
          assert b[1..][i] == b[i+1] && b[1..][j] == b[j+1];
        }
      }
      AlMenosDosRepite(b[1..], x);
      assert b == [b[0]] + b[1..];
      if b[0] == x {
        assert x !in b[1..] by {
          forall k | 0 <= k < |b[1..]| ensures b[1..][k] != x {
            assert b[1..][k] == b[k+1];
          }
        }
      }
    }
  }
}
