/** The pending-table discipline of a connection: every event preserves
    `Connection.Inv`, so ids are fresh and increasing, each id is settled at
    most once, and every issued id that is not yet settled still has an armed
    timer. */
module ConnectionInv {
  import opened Wrappers
  import opened Json
  import opened McpTypes
  import opened Connection
  import Framing

  lemma InitialSatisfiesInv()
    ensures Inv(Initial())
  {
  }

  /** The id a request takes is larger than every id in use and has never
      been settled. */
  lemma IssueTakesFreshId(codec: Codec, st: Conn, methodName: string, params: Json)
    requires Inv(st) && st.running
    ensures var (st', id) := Issue(codec, st, methodName, params);
      && id == st.requestId
      && id !in st.timers && id !in SettledIds(st.settled)
      && (forall i :: 0 <= i < |st.pending| ==> st.pending[i] < id)
      && Inv(st')
  {
    var (st', id) := Issue(codec, st, methodName, params);
    forall nid | 1 <= nid < st'.requestId && nid !in st'.timers
      ensures nid in SettledIds(st'.settled)
    {
      assert nid != id;
    }
  }

  lemma SendPreservesInv(codec: Codec, st: Conn, methodName: string, params: Json)
    requires Inv(st)
    ensures Inv(Send(codec, st, methodName, params).0)
  {
    if st.running {
      IssueTakesFreshId(codec, st, methodName, params);
    }
  }

  /** Inv speaks only of the request table, the buffer and the logs of
      lines and settlements; the other fields are free. */
  lemma InvFrame(st: Conn, st': Conn)
    requires Inv(st)
    requires st'.running == st.running && st'.buffer == st.buffer && st'.requestId == st.requestId
    requires st'.pending == st.pending && st'.timers == st.timers
    requires st'.outbox == st.outbox && st'.settled == st.settled
    ensures Inv(st')
  {
  }

  /** Settling a call whose timer is armed, removing it from the table. */
  lemma SettlePreservesInv(st: Conn, s: Settlement, st': Conn)
    requires Inv(st) && s.id in st.timers
    requires st' == st.(pending := Remove(st.pending, s.id), timers := st.timers - {s.id}, settled := st.settled + [s])
    ensures Inv(st')
  {
    forall i | 0 <= i < |st'.pending|
      ensures st'.pending[i] in st'.timers
    {
      assert st'.pending[i] in st'.pending;
    }
    SettledOnce(st, s, st');
    SettledCover(st, s, st');
  }

  lemma SettledOnce(st: Conn, s: Settlement, st': Conn)
    requires Inv(st) && s.id in st.timers
    requires st' == st.(pending := Remove(st.pending, s.id), timers := st.timers - {s.id}, settled := st.settled + [s])
    ensures forall i :: 0 <= i < |st'.settled| ==> 1 <= st'.settled[i].id < st'.requestId && st'.settled[i].id !in st'.timers
    ensures forall i, j :: 0 <= i < j < |st'.settled| ==> st'.settled[i].id != st'.settled[j].id
  {
    var n := |st.settled|;
    assert st'.settled[n] == s;
    forall i | 0 <= i < n
      ensures st'.settled[i] == st.settled[i] && st'.settled[i].id != s.id
    {
      assert st'.settled[i] == st.settled[i];
    }
    forall i, j | 0 <= i < j < |st'.settled|
      ensures st'.settled[i].id != st'.settled[j].id
    {
      if j < n {
        assert st'.settled[j] == st.settled[j];
      }
    }
  }

  lemma SettledCover(st: Conn, s: Settlement, st': Conn)
    requires Inv(st) && s.id in st.timers
    requires st' == st.(pending := Remove(st.pending, s.id), timers := st.timers - {s.id}, settled := st.settled + [s])
    ensures forall nid :: 1 <= nid < st'.requestId && nid !in st'.timers ==> nid in SettledIds(st'.settled)
  {
    assert st'.settled[|st.settled|] == s;
    forall nid | 1 <= nid < st'.requestId && nid !in st'.timers
      ensures nid in SettledIds(st'.settled)
    {
      if nid != s.id {
        var i :| 0 <= i < |st.settled| && st.settled[i].id == nid;
        assert st'.settled[i] == st.settled[i];
      }
    }
  }

  lemma HandleResponsePreservesInv(st: Conn, r: RpcResponse)
    requires Inv(st)
    ensures Inv(HandleResponse(st, r))
  {
    if r.id.JNum? && r.id.n in st.pending {
      var id := r.id.n;
      var outcome := if r.error.Some? then Rejected(id, McpErrorMessage(r.error.value)) else Resolved(id, r.result);
      SettlePreservesInv(st, outcome, HandleResponse(st, r));
    }
  }

  lemma {:induction false} DispatchPreservesInv(codec: Codec, st: Conn, lines: seq<string>)
    requires Inv(st)
    ensures Inv(Dispatch(codec, st, lines))
    decreases |lines|
  {
    if lines != [] {
      var mid := Dispatch(codec, st, Framing.Init(lines));
      DispatchPreservesInv(codec, st, Framing.Init(lines));
      var line := Framing.Last(lines);
      if !Framing.IsBlank(line) && codec.parse(line).Some? {
        HandleResponsePreservesInv(mid, codec.parse(line).value);
      }
    }
  }

  lemma FailStartPreservesInv(st: Conn, message: string)
    requires Inv(st)
    ensures Inv(FailStart(st, message))
  {
  }

  lemma ContinuePreservesInv(codec: Codec, st: Conn, s: Settlement)
    requires Inv(st)
    ensures Inv(Continue(codec, st, s))
  {
    if s.id in st.awaiting {
      var st1 := st.(awaiting := st.awaiting - {s.id});
      InvFrame(st, st1);
      var st' := Continue(codec, st, s);
      match st.awaiting[s.id]
      case AwaitInitialize =>
        if s.Rejected? {
          InvFrame(st1, st');
        } else if s.result.None? || s.result == Some(JNull) {
          InvFrame(st1, st');
        } else {
          var (st2, r) := Send(codec, st1, "tools/list", JObj([]));
          SendPreservesInv(codec, st1, "tools/list", JObj([]));
          InvFrame(st2, st');
        }
      case AwaitToolsList =>
        InvFrame(st1, st');
    }
  }

  lemma {:induction false} ContinuationsPreserveInv(codec: Codec, st: Conn, ss: seq<Settlement>)
    requires Inv(st)
    ensures Inv(Continuations(codec, st, ss))
    decreases |ss|
  {
    if ss != [] {
      ContinuationsPreserveInv(codec, st, Framing.Init(ss));
      ContinuePreservesInv(codec, Continuations(codec, st, Framing.Init(ss)), Framing.Last(ss));
    }
  }

  lemma StartPreservesInv(codec: Codec, st: Conn, name: string, spawn: SpawnResult)
    requires Inv(st)
    ensures Inv(Start(codec, st, name, spawn).0)
  {
    if !st.running && spawn.Spawned? {
      var st1 := st.(status := Initializing, events := st.events + [StatusChanged(Initializing)], running := true);
      IssueTakesFreshId(codec, st1, "initialize", InitializeParams());
    }
  }

  lemma BufferPreservesInv(st: Conn, b: string)
    requires Inv(st) && Framing.NoNewline(b)
    ensures Inv(st.(buffer := b))
  {
  }

  lemma ChunkPreservesInv(codec: Codec, st: Conn, chunk: string)
    requires Inv(st)
    ensures Inv(Chunk(codec, st, chunk))
  {
    var parts := Framing.Split(st.buffer + chunk);
    Framing.ResidueIsAfterLastNewline(st.buffer + chunk);
    BufferPreservesInv(st, Framing.Last(parts));
    var st0 := st.(buffer := Framing.Last(parts));
    DispatchPreservesInv(codec, st0, Framing.Init(parts));
    var st1 := Dispatch(codec, st0, Framing.Init(parts));
    ContinuationsPreserveInv(codec, st1, st1.settled[|st.settled|..]);
  }

  lemma TimeoutPreservesInv(codec: Codec, st: Conn, id: int)
    requires Inv(st)
    ensures Inv(Timeout(codec, st, id))
  {
    if id in st.timers {
      var s := Rejected(id, TimedOut(st.timers[id]));
      var st1 := st.(pending := Remove(st.pending, id), timers := st.timers - {id}, settled := st.settled + [s]);
      SettlePreservesInv(st, s, st1);
      ContinuationsPreserveInv(codec, st1, [s]);
    }
  }

  lemma CleanupPreservesInv(st: Conn)
    requires Inv(st)
    ensures Inv(Cleanup(st))
  {
  }

  /** The table after `stop` rejected every pending call. */
  lemma RejectAllPreservesInv(st: Conn, st': Conn)
    requires Inv(st)
    requires st' == st.(settled := st.settled + Rejections(st.pending), timers := st.timers - IdSet(st.pending), pending := [])
    ensures Inv(st')
  {
    RejectedAreOutOfTable(st, st');
    RejectedOnce(st, st');
    RejectedCover(st, st');
  }

  lemma RejectedAreOutOfTable(st: Conn, st': Conn)
    requires Inv(st)
    requires st' == st.(settled := st.settled + Rejections(st.pending), timers := st.timers - IdSet(st.pending), pending := [])
    ensures forall i :: 0 <= i < |st'.settled| ==> 1 <= st'.settled[i].id < st'.requestId && st'.settled[i].id !in st'.timers
  {
    var rs := Rejections(st.pending);
    var n := |st.settled|;
    forall i | 0 <= i < |st'.settled|
      ensures 1 <= st'.settled[i].id < st'.requestId && st'.settled[i].id !in st'.timers
    {
      if i >= n {
        assert st'.settled[i] == rs[i - n];
        assert st'.settled[i].id in IdSet(st.pending);
      } else {
        assert st'.settled[i] == st.settled[i];
      }
    }
  }

  lemma RejectedOnce(st: Conn, st': Conn)
    requires Inv(st)
    requires st' == st.(settled := st.settled + Rejections(st.pending), timers := st.timers - IdSet(st.pending), pending := [])
    ensures forall i, j :: 0 <= i < j < |st'.settled| ==> st'.settled[i].id != st'.settled[j].id
  {
    var rs := Rejections(st.pending);
    var n := |st.settled|;
    forall i, j | 0 <= i < j < |st'.settled|
      ensures st'.settled[i].id != st'.settled[j].id
    {
      if j < n {
        assert st'.settled[i] == st.settled[i] && st'.settled[j] == st.settled[j];
      } else if i < n {
        assert st'.settled[i] == st.settled[i];
        assert st'.settled[j] == rs[j - n];
        assert st'.settled[j].id in st.timers;
      } else {
        assert st'.settled[i] == rs[i - n] && st'.settled[j] == rs[j - n];
      }
    }
  }

  lemma RejectedCover(st: Conn, st': Conn)
    requires Inv(st)
    requires st' == st.(settled := st.settled + Rejections(st.pending), timers := st.timers - IdSet(st.pending), pending := [])
    ensures forall nid :: 1 <= nid < st'.requestId && nid !in st'.timers ==> nid in SettledIds(st'.settled)
  {
    var n := |st.settled|;
    forall nid | 1 <= nid < st'.requestId && nid !in st'.timers
      ensures nid in SettledIds(st'.settled)
    {
      if nid in st.timers {
        var k :| 0 <= k < |st.pending| && st.pending[k] == nid;
        assert st'.settled[n + k] == Rejections(st.pending)[k];
      } else {
        var i :| 0 <= i < |st.settled| && st.settled[i].id == nid;
        assert st'.settled[i] == st.settled[i];
      }
    }
  }

  lemma StopPreservesInv(codec: Codec, st: Conn)
    requires Inv(st)
    ensures Inv(Stop(codec, st))
  {
    if st.running {
      var rs := Rejections(st.pending);
      var st0 := st.(settled := st.settled + rs, timers := st.timers - IdSet(st.pending), pending := []);
      RejectAllPreservesInv(st, st0);
      CleanupPreservesInv(st0);
      ContinuationsPreserveInv(codec, Cleanup(st0), rs);
    }
  }

  lemma ExitPreservesInv(st: Conn, code: Option<int>, signal: Option<string>)
    requires Inv(st)
    ensures Inv(Exit(st, code, signal))
  {
  }

  lemma ProcessErrorPreservesInv(st: Conn, message: string)
    requires Inv(st)
    ensures Inv(ProcessError(st, message))
  {
  }

  lemma CallToolPreservesInv(codec: Codec, st: Conn, serverName: string, toolName: string, args: Json)
    requires Inv(st)
    ensures Inv(CallTool(codec, st, serverName, toolName, args).0)
  {
    if st.status == Ready {
      SendPreservesInv(codec, st, "tools/call", JObj([("name", JStr(toolName)), ("arguments", args)]));
    }
  }
}
