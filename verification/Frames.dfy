/** Frames, `SendFrame.build`, and the printer `dump_frame`. */
module Frames {
  import opened Bytes
  import opened Utf8
  import opened HeaderCodec
  import opened Decimal

  datatype Command =
    | SEND | SUBSCRIBE | UNSUBSCRIBE | BEGIN | COMMIT | ABORT | ACK | NACK | DISCONNECT | CONNECT | STOMP
    | CONNECTED | MESSAGE | RECEIPT | ERROR

  type Headers = map<string, string>

  datatype Frame =
    | Heartbeat
    | Frame(command: Command, headers: Headers, body: seq<byte>)

  /** FRAMES_WITH_BODY. */
  predicate HasBody(c: Command) { c in {SEND, MESSAGE, ERROR} }

  /** Frame classes without a body field cannot hold one. */
  predicate WellTyped(f: Frame) { f.Frame? && !HasBody(f.command) ==> f.body == [] }

  function Name(c: Command): (r: string)
    ensures r != "" && forall i :: 0 <= i < |r| ==> 'A' <= r[i] <= 'Z'
  {
    match c
    case SEND => "SEND"
    case SUBSCRIBE => "SUBSCRIBE"
    case UNSUBSCRIBE => "UNSUBSCRIBE"
    case BEGIN => "BEGIN"
    case COMMIT => "COMMIT"
    case ABORT => "ABORT"
    case ACK => "ACK"
    case NACK => "NACK"
    case DISCONNECT => "DISCONNECT"
    case CONNECT => "CONNECT"
    case STOMP => "STOMP"
    case CONNECTED => "CONNECTED"
    case MESSAGE => "MESSAGE"
    case RECEIPT => "RECEIPT"
    case ERROR => "ERROR"
  }

  function NameBytes(c: Command): (r: seq<byte>)
    ensures r != [] && forall i :: 0 <= i < |r| ==> 65 <= r[i] <= 90
  {
    Ascii(Name(c))
  }

  const COMMANDS: seq<Command> :=
    [SEND, SUBSCRIBE, UNSUBSCRIBE, BEGIN, COMMIT, ABORT, ACK, NACK, DISCONNECT, CONNECT, STOMP,
     CONNECTED, MESSAGE, RECEIPT, ERROR]

  function Find(bs: seq<byte>, commands: seq<Command>): (r: Option<Command>)
    ensures r.Some? ==> bs == NameBytes(r.value)
    ensures r.None? ==> forall c :: c in commands ==> bs != NameBytes(c)
  {
    if commands == [] then None
    else if bs == NameBytes(commands[0]) then Some(commands[0])
    else Find(bs, commands[1..])
  }

  /** COMMANDS_TO_FRAMES. */
  function Lookup(bs: seq<byte>): (r: Option<Command>)
    ensures r.Some? ==> bs == NameBytes(r.value)
  {
    Find(bs, COMMANDS)
  }

  lemma NamesDiffer(c: Command, d: Command)
    requires NameBytes(c) == NameBytes(d)
    ensures c == d
  {
    var m, n := Name(c), Name(d);
    forall i | 0 <= i < |m| ensures m[i] == n[i] {
      assert NameBytes(c)[i] == NameBytes(d)[i];
    }
    assert m == n;
  }

  lemma LookupName(c: Command)
    ensures Lookup(NameBytes(c)) == Some(c)
  {
    assert c in COMMANDS;
    NamesDiffer(c, Lookup(NameBytes(c)).value);
  }

  // ------------------------------------------------------------------------------------------
  // sorted(frame.headers.items())
  // ------------------------------------------------------------------------------------------

  /** Python's order on `str`: lexicographic by code point. */
  predicate Below(a: string, b: string)
  {
    b != "" && (a == "" || a[0] < b[0] || (a[0] == b[0] && Below(a[1..], b[1..])))
  }

  lemma {:induction false} BelowTotal(a: string, b: string)
    ensures Below(a, b) || Below(b, a) || a == b
    ensures !(Below(a, b) && Below(b, a))
    ensures !Below(a, a)
  {
    if a != "" {
      BelowTotal(a[1..], a[1..]);
      if b != "" && a[0] == b[0] {
        BelowTotal(a[1..], b[1..]);
        assert a == [a[0]] + a[1..] && b == [b[0]] + b[1..];
      }
    }
  }

  lemma {:induction false} BelowTransitive(a: string, b: string, c: string)
    requires Below(a, b) && Below(b, c)
    ensures Below(a, c)
  {
    if a != "" && a[0] == b[0] == c[0] {
      BelowTransitive(a[1..], b[1..], c[1..]);
    }
  }

  predicate IsLeast(k: string, keys: set<string>) { k in keys && forall x :: x in keys && x != k ==> Below(k, x) }

  lemma {:induction false} LeastExists(keys: set<string>)
    requires keys != {}
    ensures exists k :: IsLeast(k, keys)
    ensures forall x, y :: IsLeast(x, keys) && IsLeast(y, keys) ==> x == y
    decreases |keys|
  {
    var a :| a in keys;
    if keys == {a} {
      assert IsLeast(a, keys);
    } else {
      LeastExists(keys - {a});
      var m :| IsLeast(m, keys - {a});
      BelowTotal(a, m);
      if Below(m, a) {
        assert IsLeast(m, keys);
      } else {
        forall x | x in keys && x != a ensures Below(a, x) {
          if x != m { BelowTransitive(a, m, x); }
        }
        assert IsLeast(a, keys);
      }
    }
    forall x, y | IsLeast(x, keys) && IsLeast(y, keys) ensures x == y {
      BelowTotal(x, y);
    }
  }

  /** Strictly increasing keys. */
  predicate Sorted(items: seq<(string, string)>)
  {
    forall i, j :: 0 <= i < j < |items| ==> Below(items[i].0, items[j].0)
  }

  /** The dictionary an item list builds when the first entry of a key wins. */
  function FirstWins(items: seq<(string, string)>): (m: Headers)
  {
    if items == [] then map[] else FirstWins(items[1..])[items[0].0 := items[0].1]
  }

  function LeastKey(m: Headers): (k: string)
    requires m != map[]
    ensures IsLeast(k, m.Keys)
  {
    assert m.Keys != {};
    LeastExists(m.Keys);
    var k :| IsLeast(k, m.Keys);
    k
  }

  function SortedItems(m: Headers): (r: seq<(string, string)>)
    decreases |m|
  {
    if m == map[] then [] else
      var k := LeastKey(m);
      assert m.Keys == (m - {k}).Keys + {k};
      [(k, m[k])] + SortedItems(m - {k})
  }

  lemma SortedCons(k: string, v: string, tail: seq<(string, string)>)
    requires Sorted(tail)
    requires forall i :: 0 <= i < |tail| ==> Below(k, tail[i].0)
    ensures Sorted([(k, v)] + tail)
  {
  }

  /** The sorted item list has increasing keys and rebuilds the dictionary. */
  lemma {:induction false} SortedItemsSpec(m: Headers)
    ensures Sorted(SortedItems(m))
    ensures FirstWins(SortedItems(m)) == m
    ensures forall i :: 0 <= i < |SortedItems(m)| ==> SortedItems(m)[i].0 in m
    decreases |m|
  {
    if m != map[] {
      var k := LeastKey(m);
      var rest := m - {k};
      assert m.Keys == rest.Keys + {k};
      SortedItemsSpec(rest);
      var tail := SortedItems(rest);
      var items := SortedItems(m);
      assert items == [(k, m[k])] + tail && items[1..] == tail;
      SortedCons(k, m[k], tail);
      assert FirstWins(items) == rest[k := m[k]] == m;
    }
  }

  // ------------------------------------------------------------------------------------------
  // dump_frame
  // ------------------------------------------------------------------------------------------

  function DumpHeaders(c: Command, items: seq<(string, string)>): seq<byte>
  {
    if items == [] then []
    else
      (if c == CONNECT then Encode(items[0].0 + ":" + items[0].1 + "\n") else DumpHeader(items[0].0, items[0].1))
      + DumpHeaders(c, items[1..])
  }

  /** `dump_frame`; a heartbeat is the bare newline of `write_heartbeat`. */
  function DumpFrame(f: Frame): seq<byte>
  {
    match f
    case Heartbeat => [LF]
    case Frame(c, headers, body) =>
      NameBytes(c) + [LF] + DumpHeaders(c, SortedItems(headers)) + [LF] + (if HasBody(c) then body else []) + [NUL]
  }

  /** `SendFrame.build`, on values. */
  function BuildSend(body: seq<byte>, destination: string, transaction: Option<string>, contentType: Option<string>,
                     addContentLength: bool, headers: Headers): (f: Frame)
    ensures f.Frame? && f.command == SEND && f.body == body
    ensures addContentLength ==> "content-length" in f.headers && f.headers["content-length"] == Print(|body|)
  {
    var h := headers["destination" := destination];
    var h := if addContentLength then h["content-length" := Print(|body|)] else h;
    var h := if contentType.Some? then h["content-type" := contentType.value] else h;
    var h := if transaction.Some? then h["transaction" := transaction.value] else h;
    Frame(SEND, h, body)
  }

  /** What the frame says of key `k`: the argument it stands for, or else what the caller's headers say. */
  lemma BuildSendCarries(body: seq<byte>, destination: string, transaction: Option<string>, contentType: Option<string>,
                         addContentLength: bool, headers: Headers, k: string)
    ensures var h := BuildSend(body, destination, transaction, contentType, addContentLength, headers).headers;
            var given :=
              if k == "destination" then Some(destination)
              else if k == "content-length" && addContentLength then Some(Print(|body|))
              else if k == "content-type" && contentType.Some? then contentType
              else if k == "transaction" && transaction.Some? then transaction
              else if k in headers then Some(headers[k])
              else None;
            if k in h then given == Some(h[k]) else given == None
  {
  }
}
