/** Snapshot files: one decimal id per line, written with `"%s\n" % id` and read back
    with `int(line)` for every line of the file. */
module Snapshot {
  import opened Basics
  import opened Text
  import opened Decimal

  /** The text the bot writes for ids written in this order. */
  function Serialize(ids: seq<int>): string {
    if ids == [] then "" else IntToString(ids[0]) + "\n" + Serialize(ids[1..])
  }

  /** Writing `a` and then appending `b` leaves the text of writing `a + b`. */
  lemma {:induction false} SerializeAppend(a: seq<int>, b: seq<int>)
    ensures Serialize(a + b) == Serialize(a) + Serialize(b)
  {
    if a == [] {
      assert a + b == b;
    } else {
      assert (a + b)[0] == a[0];
      assert (a + b)[1..] == a[1..] + b;
      SerializeAppend(a[1..], b);
    }
  }

  /** `pre` put in front of a successful parse; a failure is passed on. */
  function Prefixed(pre: seq<int>, r: Result<seq<int>, Error>): Result<seq<int>, Error> {
    match r
    case Success(ids) => Success(pre + ids)
    case Failure(_) => r
  }

  lemma PrefixedNothing(r: Result<seq<int>, Error>)
    ensures Prefixed([], r) == r
  {
    if r.Success? {
      assert [] + r.value == r.value;
    }
  }

  lemma PrefixedTwice(a: seq<int>, b: seq<int>, r: Result<seq<int>, Error>)
    ensures Prefixed(a, Prefixed(b, r)) == Prefixed(a + b, r)
  {
    if r.Success? {
      assert a + (b + r.value) == (a + b) + r.value;
    }
  }

  /** `int(line)` for each line in turn; the first line that is not a numeral raises. */
  function ParseLines(lines: seq<string>): Result<seq<int>, Error> {
    if lines == [] then Success([])
    else match ParseInt(lines[0])
      case None => Failure(NotAnInteger(lines[0]))
      case Some(id) => Prefixed([id], ParseLines(lines[1..]))
  }

  function ParseIds(text: string): Result<seq<int>, Error> {
    ParseLines(Lines(text))
  }

  /** The `set(...)` the readers return around the list they accumulated. */
  function AsSet(r: Result<seq<int>, Error>): Result<set<int>, Error> {
    match r
    case Success(ids) => Success(Elems(ids))
    case Failure(e) => Failure(e)
  }

  /** Reading a snapshot back gives the ids written, in the order written. */
  lemma {:induction false} SerializeRoundTrip(ids: seq<int>)
    ensures ParseIds(Serialize(ids)) == Success(ids)
  {
    if ids != [] {
      var head := IntToString(ids[0]);
      LinesCons(head, Serialize(ids[1..]));
      IntRoundTrip(ids[0]);
      SerializeRoundTrip(ids[1..]);
      assert [ids[0]] + ids[1..] == ids;
    }
  }

  /** The loop of the `get_*_list` readers: one `int(line)` per line, appended to a
      list that is turned into a set at the end. */
  method ReadIds(text: string) returns (r: Result<set<int>, Error>)
    ensures r == AsSet(ParseIds(text))
  {
    var lines := Lines(text);
    var ids: seq<int> := [];
    var i := 0;
    assert lines[i..] == lines;
    PrefixedNothing(ParseLines(lines));
    while i < |lines|
      invariant 0 <= i <= |lines|
      invariant ParseLines(lines) == Prefixed(ids, ParseLines(lines[i..]))
    {
      assert lines[i..][0] == lines[i] && lines[i..][1..] == lines[i + 1..];
      var id := ParseInt(lines[i]);
      if id.None? {
        return Failure(NotAnInteger(lines[i]));
      }
      PrefixedTwice(ids, [id.value], ParseLines(lines[i + 1..]));
      ids := ids + [id.value];
      i := i + 1;
    }
    assert lines[i..] == [] && ids + [] == ids;
    return Success(Elems(ids));
  }

  /** Writing a Python set, one `"%s\n" % id` per element in the set's own iteration
      order, which the model leaves open: some order of its elements, each once. */
  method Render(s: set<int>) returns (text: string, ghost order: seq<int>)
    ensures Distinct(order) && Elems(order) == s
    ensures text == Serialize(order)
  {
    text, order := "", [];
    var rest := s;
    while rest != {}
      invariant Distinct(order) && Elems(order) !! rest && Elems(order) + rest == s
      invariant text == Serialize(order)
      decreases rest
    {
      var id := Choose(rest);
      SerializeAppend(order, [id]);
      assert Serialize([id]) == IntToString(id) + "\n";
      text := text + IntToString(id) + "\n";
      order := order + [id];
      rest := rest - {id};
    }
  }

  /** A rendered set reads back as that set. */
  lemma RenderReadsBack(order: seq<int>)
    ensures AsSet(ParseIds(Serialize(order))) == Success(Elems(order))
  {
    SerializeRoundTrip(order);
  }
}
