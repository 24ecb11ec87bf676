/** The token queue between the thread that produces an answer and the loop that publishes it:
    Python's `queue.Queue`, first in first out. Producers put strings, and `None` marks the end
    of an answer. */
module TokenQueue {

  /** What is put on the queue: a piece of text, or the end-of-answer marker `None`. */
  datatype Item = Token(text: string) | Sentinel

  /** The texts a consumer reads from `items` before it reaches the first end marker; nothing
      after that marker is read. */
  function Stream(items: seq<Item>): (r: seq<string>)
    ensures |r| <= |items|
    decreases |items|
  {
    if items == [] then []
    else match items[0]
      case Sentinel => []
      case Token(t) => [t] + Stream(items[1..])
  }

  /** Where the first end marker sits. */
  function FirstSentinel(items: seq<Item>): (i: nat)
    requires Sentinel in items
    ensures i < |items| && items[i] == Sentinel
    ensures forall j :: 0 <= j < i ==> items[j] != Sentinel
    decreases |items|
  {
    if items[0] == Sentinel then 0
    else
      assert items == [items[0]] + items[1..];
      var k := FirstSentinel(items[1..]);
      assert forall j :: 1 <= j <= k + 1 ==> items[j] == items[1..][j - 1];
      k + 1
  }

  /** Reading one item: a marker ends the stream, a token is read and the stream goes on; a
      marker still lies ahead after a token. */
  lemma StreamStep(item: Item, rest: seq<Item>)
    ensures item.Sentinel? ==> Stream([item] + rest) == []
    ensures item.Token? ==> Stream([item] + rest) == [item.text] + Stream(rest)
    ensures item.Token? && Sentinel in [item] + rest ==> Sentinel in rest
  {
    assert ([item] + rest)[1..] == rest;
  }

  /** The items of one more text are those of the texts before it and then its token. */
  lemma TokensSnoc(texts: seq<string>, t: string)
    ensures Tokens(texts + [t]) == Tokens(texts) + [Token(t)]
  {
  }

  /** Everything before an end marker is read, in order: the stream of a prefix of tokens
      followed by a marker is exactly those tokens, whatever follows the marker. */
  lemma {:induction false} StreamOfTokens(texts: seq<string>, rest: seq<Item>)
    ensures Stream(Tokens(texts) + [Sentinel] + rest) == texts
    decreases |texts|
  {
    if texts == [] {
      assert Tokens(texts) + [Sentinel] + rest == [Sentinel] + rest;
    } else {
      assert (Tokens(texts) + [Sentinel] + rest)[1..] == Tokens(texts[1..]) + [Sentinel] + rest;
      StreamOfTokens(texts[1..], rest);
    }
  }

  /** The items `put` for a sequence of texts, one per text. */
  function Tokens(texts: seq<string>): (r: seq<Item>)
    ensures |r| == |texts|
    ensures forall i :: 0 <= i < |texts| ==> r[i] == Token(texts[i])
  {
    seq(|texts|, i requires 0 <= i < |texts| => Token(texts[i]))
  }

  class Queue {
    /** The items put and not yet taken, oldest first. */
    var items: seq<Item>

    constructor ()
      ensures items == []
    {
      items := [];
    }

    /** `put`: the item joins the back of the queue. */
    method Put(x: Item)
      modifies this
      ensures items == old(items) + [x]
    {
      items := items + [x];
    }

    /** `get` on a non-empty queue: the oldest item leaves the queue and is returned. */
    method Get() returns (x: Item)
      requires items != []
      modifies this
      ensures x == old(items)[0] && items == old(items)[1..]
    {
      x := items[0];
      items := items[1..];
    }
  }
}
