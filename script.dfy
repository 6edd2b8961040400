/** Loading the fault script: after the `N <window>, S <total>` header both
    programs read whitespace-separated integers into a fixed buffer. The
    tokens are taken here as an already-parsed list; what is modelled is how
    many entries are kept and which buffer slots are written. */
module Script {

  function Min(a: int, b: int): (m: int)
    ensures m <= a && m <= b && (m == a || m == b)
  {
    if a <= b then a else b
  }

  /** What a reading loop did: the count it returns and the buffer indices it
      stored a token into, in order. */
  datatype ReadTrace = ReadTrace(count: nat, stores: seq<int>)

  /** The server's loop: the bound `count < max` is tested before each read,
      and a read that finds no token (end of file) stores nothing. `tokens` is
      the number of tokens still unread. */
  function ReadBoundFirst(tokens: nat, max: nat, count: nat): (r: ReadTrace)
    ensures count <= r.count <= count + tokens
    ensures |r.stores| == r.count - count
    decreases tokens
  {
    if count >= max || tokens == 0 then ReadTrace(count, [])
    else
      var rest := ReadBoundFirst(tokens - 1, max, count + 1);
      ReadTrace(rest.count, [count] + rest.stores)
  }

  /** The client's loop as written: the read stores into `buf[count]` first
      and the bound `count < max` is tested only afterwards. */
  function ReadBoundAfter(tokens: nat, max: nat, count: nat): (r: ReadTrace)
    ensures count <= r.count <= count + tokens
    ensures r.count - count <= |r.stores| <= r.count - count + 1
    decreases tokens
  {
    if tokens == 0 then ReadTrace(count, [])
    else if count < max then
      var rest := ReadBoundAfter(tokens - 1, max, count + 1);
      ReadTrace(rest.count, [count] + rest.stores)
    else ReadTrace(count, [count])
  }

  /** Testing the bound first keeps every store inside `buf[0..max)`: the
      slots written are exactly `0 .. count-1`, and the count is the number of
      tokens, capped at the buffer size. */
  lemma {:induction false} BoundFirstInBounds(tokens: nat, max: nat, count: nat)
    requires count <= max
    ensures var t := ReadBoundFirst(tokens, max, count);
      t.count == count + Min(tokens, max - count) &&
      |t.stores| == t.count - count &&
      forall i :: 0 <= i < |t.stores| ==> t.stores[i] == count + i && t.stores[i] < max
  {
    if count < max && tokens > 0 {
      BoundFirstInBounds(tokens - 1, max, count + 1);
    }
  }

  /** The client's order returns the same count, but when more tokens remain
      than the buffer holds it stores one more token, into `buf[max]`, one
      past the end of the buffer. */
  lemma {:induction false} BoundAfterOverruns(tokens: nat, max: nat, count: nat)
    requires count <= max
    ensures var t := ReadBoundAfter(tokens, max, count);
      t.count == count + Min(tokens, max - count) &&
      (tokens <= max - count ==> forall i :: 0 <= i < |t.stores| ==> t.stores[i] < max) &&
      (tokens > max - count ==> |t.stores| > 0 && t.stores[|t.stores| - 1] == max)
  {
    if tokens > 0 && count < max {
      BoundAfterOverruns(tokens - 1, max, count + 1);
    }
  }

  /** A concrete instance: 256 integers after the header, with the 255-entry
      buffer both programs use, make the client store into index 255. */
  lemma ClientOverrunExample()
    ensures 255 in ReadBoundAfter(256, 255, 0).stores
  {
    BoundAfterOverruns(256, 255, 0);
    var t := ReadBoundAfter(256, 255, 0);
    assert t.stores[|t.stores| - 1] == 255;
  }

  /** `load_actions` in the server, in place on the fixed buffer: copies
      tokens until the buffer is full or the tokens run out and returns how
      many it copied. The slots past the count are left as they were. */
  method LoadActions(tokens: seq<int>, actions: array<int>) returns (count: nat)
    modifies actions
    ensures count == Min(|tokens|, actions.Length)
    ensures count == ReadBoundFirst(|tokens|, actions.Length, 0).count
    ensures actions[..count] == tokens[..count]
    ensures actions[count..] == old(actions[count..])
  {
    BoundFirstInBounds(|tokens|, actions.Length, 0);
    count := 0;
    while count < actions.Length && count < |tokens|
      invariant count <= actions.Length && count <= |tokens|
      invariant actions[..count] == tokens[..count]
      invariant actions[count..] == old(actions[count..])
    {
      actions[count] := tokens[count];
      count := count + 1;
    }
  }
}
