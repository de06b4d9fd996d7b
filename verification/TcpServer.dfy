/** nwl::TcpServer: the table of connections, keyed by a name made from a 32-bit counter, shared by the
    accepting thread and the loops on which connections close. */
module TcpServers {
  import opened Framing

  // ---- names ----

  /** %d for a natural number. */
  function Decimal(n: nat): (s: string)
    ensures |s| >= 1 && forall c <- s :: '0' <= c <= '9'
  {
    var last := ['0' + (n % 10) as char];
    if n < 10 then last else Decimal(n / 10) + last
  }

  function SignedDecimal(n: int): (s: string)
    ensures |s| >= 1 && (s[0] == '-' <==> n < 0)
  {
    if n < 0 then "-" + Decimal(-n) else
      var d := Decimal(n);
      assert d[0] in d;
      d
  }

  lemma {:induction false} DecimalInjective(m: nat, n: nat)
    requires Decimal(m) == Decimal(n)
    ensures m == n
    decreases m + n
  {
    var s := Decimal(m);
    assert s[|s| - 1] == '0' + (m % 10) as char == '0' + (n % 10) as char;
    assert m % 10 == n % 10;
    if m >= 10 && n >= 10 {
      assert s[..|s| - 1] == Decimal(m / 10) == Decimal(n / 10);
      DecimalInjective(m / 10, n / 10);
    }
  }

  lemma SignedDecimalInjective(m: int, n: int)
    ensures SignedDecimal(m) == SignedDecimal(n) <==> m == n
  {
    var s, t := SignedDecimal(m), SignedDecimal(n);
    if s == t {
      if m < 0 {
        assert s[1..] == Decimal(-m) && t[1..] == Decimal(-n);
        DecimalInjective(-m, -n);
      } else {
        DecimalInjective(m, n);
      }
    }
  }

  /** nextConnId_ starts at 1 and is an atomic<int>: this is what the i-th fetch_add returns. */
  function ConnId(i: nat): int {
    AsInt32(i + 1)
  }

  function NameOf(server: string, i: nat): string {
    server + "#" + SignedDecimal(ConnId(i))
  }

  /** Two connections of a server have the same name exactly when they are a multiple of 2^32 accepts apart. */
  lemma NameExact(server: string, i: nat, j: nat)
    ensures NameOf(server, i) == NameOf(server, j) <==> i % TWO_32 == j % TWO_32
  {
    hide SignedDecimal;
    var p := server + "#";
    var a, b := SignedDecimal(ConnId(i)), SignedDecimal(ConnId(j));
    assert p + a == p + b ==> a == (p + a)[|p|..] == (p + b)[|p|..] == b;
    SignedDecimalInjective(ConnId(i), ConnId(j));
    WrapExact(i, j);
  }

  lemma WrapExact(i: nat, j: nat)
    ensures ConnId(i) == ConnId(j) <==> i % TWO_32 == j % TWO_32
  {
    assert (i + 1) % TWO_32 == if i % TWO_32 == TWO_32 - 1 then 0 else i % TWO_32 + 1;
    assert (j + 1) % TWO_32 == if j % TWO_32 == TWO_32 - 1 then 0 else j % TWO_32 + 1;
  }

  // ---- the table ----

  /** Connections are numbered in the order in which they were accepted. */
  datatype State = State(server: string, accepted: nat, table: map<string, nat>,
                         closed: set<nat>,       // whose closeCallback_ has run
                         destroys: seq<nat>)     // connectDestroyed functors posted

  function Init(server: string): State {
    State(server, 0, map[], {}, [])
  }

  /** The close callback comes at most once per connection: see Transport.LifecycleTheorem. */
  datatype Event = Accept | Close(conn: nat)

  function Step(s: State, ev: Event): State {
    match ev
    case Accept => s.(accepted := s.accepted + 1, table := s.table[NameOf(s.server, s.accepted) := s.accepted])
    case Close(i) =>
      if i >= s.accepted || i in s.closed then s else
        s.(table := s.table - {NameOf(s.server, i)}, closed := s.closed + {i}, destroys := s.destroys + [i])
  }

  function Run(server: string, evs: seq<Event>): State {
    if evs == [] then Init(server) else Step(Run(server, evs[..|evs| - 1]), evs[|evs| - 1])
  }

  /** The table holds exactly the connections that are not closed, each under its own name. */
  ghost predicate Exact(s: State) {
    && (forall i | 0 <= i < s.accepted :: i !in s.closed <==> Holds(s, i))
    && (forall n <- s.table :: s.table[n] < s.accepted && n == NameOf(s.server, s.table[n]))
  }

  ghost predicate Holds(s: State, i: nat) {
    NameOf(s.server, i) in s.table && s.table[NameOf(s.server, i)] == i
  }

  ghost predicate Tidy(s: State) {
    && (forall i <- s.closed :: i < s.accepted)
    && (forall i :: i in s.destroys <==> i in s.closed)
    && (forall i, j :: 0 <= i < j < |s.destroys| ==> s.destroys[i] != s.destroys[j])
  }

  /** No open connection bears the name about to be given out. */
  ghost predicate NameFree(s: State) {
    forall i | 0 <= i < s.accepted :: i !in s.closed ==> i % TWO_32 != s.accepted % TWO_32
  }

  /** An accept keeps the table exact if and only if no connection accepted a multiple of 2^32 earlier
      is still open; otherwise that one drops out of the table while open. */
  lemma AcceptExact(s: State)
    requires Exact(s) && Tidy(s)
    ensures Exact(Step(s, Accept)) <==> NameFree(s)
  {
    hide NameOf;
    var s' := Step(s, Accept);
    var k := s.accepted;
    forall i | 0 <= i < k
      ensures NameOf(s.server, i) == NameOf(s.server, k) <==> i % TWO_32 == k % TWO_32
      ensures i % TWO_32 == k % TWO_32 ==> !Holds(s', i)
      ensures i % TWO_32 != k % TWO_32 ==> (Holds(s', i) <==> Holds(s, i))
    {
      NameExact(s.server, i, k);
    }
    assert Holds(s', k) && k !in s'.closed;
    if NameFree(s) {
      forall i | 0 <= i < s'.accepted ensures i !in s'.closed <==> Holds(s', i) {
        if i < k && i in s.closed {
          assert !Holds(s, i);
        }
      }
    } else {
      var i :| 0 <= i < k && i !in s.closed && i % TWO_32 == k % TWO_32;
      assert i !in s'.closed && !Holds(s', i);
    }
  }

  /** Closing a connection takes out its own entry and no other. */
  lemma CloseExact(s: State, i: nat)
    requires Exact(s) && Tidy(s)
    ensures Exact(Step(s, Close(i)))
  {
    hide NameOf;
    var s' := Step(s, Close(i));
    if s' != s {
      assert Holds(s, i);
      forall j | 0 <= j < s.accepted ensures j !in s'.closed <==> Holds(s', j) {
        assert j !in s.closed <==> Holds(s, j);
      }
    }
  }

  /** An accept files the new connection under the next name; a close takes its own name out of the table,
      and posts the connection's connectDestroyed, once. */
  lemma TableEffect(s: State, i: nat)
    ensures var s', name := Step(s, Accept), NameOf(s.server, s.accepted);
      && s' == s.(accepted := s.accepted + 1, table := s'.table)
      && name in s'.table && s'.table[name] == s.accepted
      && s'.table.Keys == s.table.Keys + {name} && (forall n <- s.table :: n != name ==> s'.table[n] == s.table[n])
    ensures i < s.accepted && i !in s.closed ==>
              var s', name := Step(s, Close(i)), NameOf(s.server, i);
              && s' == s.(table := s'.table, closed := s.closed + {i}, destroys := s.destroys + [i])
              && s'.table.Keys == s.table.Keys - {name} && (forall n <- s'.table :: s'.table[n] == s.table[n])
    ensures i in s.closed ==> Step(s, Close(i)) == s
  {
    hide NameOf;
  }

  /** The names: "#1", "#2" and so on, with the counter's value after 2^31 - 1 being -2^31. */
  lemma NameEffect(server: string, i: nat)
    ensures i + 1 < 0x8000_0000 ==> NameOf(server, i) == server + "#" + Decimal(i + 1)
    ensures 0x8000_0000 <= i + 1 < 0x1_0000_0000 ==>
              NameOf(server, i) == server + "#-" + Decimal(0x1_0000_0000 - (i + 1))
  {
    hide Decimal;
    if 0x8000_0000 <= i + 1 < 0x1_0000_0000 {
      assert server + "#" + ("-" + Decimal(-ConnId(i))) == server + "#-" + Decimal(-ConnId(i));
    }
  }

  /** Decimal digits, without a leading zero. */
  lemma {:induction false} DecimalDigits(n: nat)
    ensures var s := Decimal(n); (s[0] == '0' <==> n == 0) && (n < 10 <==> |s| == 1)
    ensures n >= 10 ==> Decimal(n) == Decimal(n / 10) + Decimal(n % 10)
  {
    if n >= 10 {
      DecimalDigits(n / 10);
    }
  }

  lemma StepTidy(s: State, ev: Event)
    requires Tidy(s)
    ensures Tidy(Step(s, ev))
  {
    hide NameOf;
  }

  lemma {:induction false} RunTidy(server: string, evs: seq<Event>)
    ensures Tidy(Run(server, evs))
  {
    hide Step;
    if evs != [] {
      RunTidy(server, evs[..|evs| - 1]);
      StepTidy(Run(server, evs[..|evs| - 1]), evs[|evs| - 1]);
    }
  }

  /** For the first 2^32 connections of a server, whatever the order of accepts and closes: the table is
      exactly the open connections; and connectDestroyed is posted once for each closed one. */
  lemma {:induction false} TableTheorem(server: string, evs: seq<Event>)
    ensures var s := Run(server, evs);
      && (s.accepted <= TWO_32 ==> Exact(s))
      && (forall i :: i in s.destroys <==> i in s.closed)
      && (forall i, j :: 0 <= i < j < |s.destroys| ==> s.destroys[i] != s.destroys[j])
  {
    hide NameOf;
    RunTidy(server, evs);
    if evs != [] {
      var init, ev := evs[..|evs| - 1], evs[|evs| - 1];
      var s := Run(server, init);
      TableTheorem(server, init);
      RunTidy(server, init);
      if Step(s, ev).accepted <= TWO_32 {
        match ev
        case Accept => AcceptExact(s);
        case Close(i) => CloseExact(s, i);
      }
    }
  }

  // ---- the object ----

  class TcpServer {
    const name: string
    var nextConnId: int
    var connections: map<string, nat>
    ghost var rest: State

    ghost predicate Valid()
      reads this
    {
      rest.server == name && nextConnId == ConnId(rest.accepted)
    }

    ghost function View(): State
      reads this
    {
      rest.(table := connections)
    }

    constructor (name: string)
      ensures Valid() && View() == Init(name)
    {
      this.name, nextConnId, connections := name, 1, map[];
      rest := Init(name);
    }

    /** conn is the new TcpConnection, which is named here. */
    method HandleNewConnection(conn: nat) returns (connName: string)
      requires Valid() && conn == View().accepted
      modifies this
      ensures Valid() && View() == Step(old(View()), Accept)
      ensures connName == NameOf(name, conn)
    {
      hide SignedDecimal;
      connName := name + "#" + SignedDecimal(nextConnId);
      nextConnId := if nextConnId == 0x7fff_ffff then -0x8000_0000 else nextConnId + 1;
      NextId(rest.accepted);
      connections := connections[connName := conn];
      rest := rest.(accepted := conn + 1);
    }

    /** The close callback of an open connection. */
    method RemoveConnection(conn: nat)
      requires Valid() && conn < View().accepted && conn !in View().closed
      modifies this`connections, this`rest
      ensures Valid() && View() == Step(old(View()), Close(conn))
    {
      hide NameOf;
      connections := connections - {NameOf(name, conn)};
      rest := rest.(closed := rest.closed + {conn}, destroys := rest.destroys + [conn]);
    }
  }

  /** The counter as it wraps. */
  lemma NextId(i: nat)
    ensures ConnId(i + 1) == if ConnId(i) == 0x7fff_ffff then -0x8000_0000 else ConnId(i) + 1
  {
    assert (i + 2) % TWO_32 == if (i + 1) % TWO_32 == TWO_32 - 1 then 0 else (i + 1) % TWO_32 + 1;
  }
}
