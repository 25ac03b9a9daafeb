/** Shared vocabulary of the model: optional values, results, the exceptions the bot
    lets escape, and two facts about sequences of account ids. */
module Basics {

  datatype Option<+T> = None | Some(value: T)

  datatype Result<+T, +E> = Success(value: T) | Failure(error: E)

  /** The exceptions that escape the bot's public methods, by kind. */
  datatype Error =
    | MissingKey(key: string)            // KeyError on the configuration dictionary
    | NoSuchFile(path: string)           // IOError from opening a file for reading
    | MalformedConfigLine(line: string)  // IndexError: a configuration line without ':'
    | NotAnInteger(line: string)         // ValueError from int(line)
    | RemoteError(message: string)       // TwitterHTTPError, carrying str(e)
    | NoConnection                       // AttributeError: a remote call while TWITTER_CONNECTION is None

  /** The set of elements of a sequence: what Python's set(list) keeps. */
  function Elems<T>(s: seq<T>): set<T> {
    set x | x in s
  }

  lemma ElemsAppend<T>(a: seq<T>, b: seq<T>)
    ensures Elems(a + b) == Elems(a) + Elems(b)
  {
  }

  /** The next element of a Python `for x in s` over a set: the iteration order is
      not specified, so any element may come next. */
  method Choose(s: set<int>) returns (x: int)
    requires s != {}
    ensures x in s
  {
    NonEmptyHasElement(s);
    x :| x in s;
  }

  lemma NonEmptyHasElement(s: set<int>)
    requires s != {}
    ensures exists x :: x in s
  {
    if forall x :: x !in s {
      assert false;
    }
  }

  /** No element occurs twice. */
  predicate Distinct<T(==)>(s: seq<T>) {
    forall i, j :: 0 <= i < j < |s| ==> s[i] != s[j]
  }
}
