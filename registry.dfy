/**
 * The watch registry (`st.session_state.symbols`) and one pass of the
 * evaluation loop. The JSON file is the ghost field `persisted`, written only
 * where the program calls `save_symbols`; `saves` counts those writes.
 */
module Registry {
  import opened Wrappers
  import opened Evaluation

  /** A notification attempt: the webhook it goes to, for which symbol, in which direction. */
  datatype Alert = Alert(symbol: string, webhookUrl: string, direction: Direction)

  /** The fetch result for one symbol; a symbol the map does not mention failed. */
  function FetchFor(fetched: map<string, Fetch>, symbol: string): Fetch
  {
    if symbol in fetched then fetched[symbol] else Failed
  }

  /** What a tick does with one watch: an inactive one is never evaluated. */
  function Outcome(w: Watch, f: Fetch): Option<Direction>
  {
    if w.active then Evaluate(w, f) else None
  }

  /** The symbols among `keys` whose watch fires on this tick's fetches. */
  function TriggeredAmong(symbols: map<string, Watch>, fetched: map<string, Fetch>, keys: set<string>)
    : (r: set<string>)
    ensures r <= keys && r <= symbols.Keys
    ensures forall s :: s in r ==> symbols[s].active && FetchFor(fetched, s).Bars?
    ensures forall s :: s in keys && s in symbols ==>
              (s in r <==> Outcome(symbols[s], FetchFor(fetched, s)).Some?)
  {
    set s | s in keys && s in symbols && Outcome(symbols[s], FetchFor(fetched, s)).Some?
  }

  function Triggered(symbols: map<string, Watch>, fetched: map<string, Fetch>): set<string>
  {
    TriggeredAmong(symbols, fetched, symbols.Keys)
  }

  /** The notification a triggered symbol receives. */
  function AlertFor(symbols: map<string, Watch>, fetched: map<string, Fetch>, s: string): Alert
    requires s in Triggered(symbols, fetched)
  {
    Alert(s, symbols[s].webhookUrl, Outcome(symbols[s], FetchFor(fetched, s)).value)
  }

  /** A failed fetch for one symbol removes that symbol, and only that one, from the triggered set. */
  lemma {:induction false} FailureIsolated(symbols: map<string, Watch>, fetched: map<string, Fetch>, a: string)
    ensures Triggered(symbols, fetched[a := Failed]) == Triggered(symbols, fetched) - {a}
  {
    var failed := fetched[a := Failed];
    forall s | s in symbols
      ensures s in Triggered(symbols, failed) <==> s in Triggered(symbols, fetched) && s != a
    {
      if s != a {
        assert FetchFor(failed, s) == FetchFor(fetched, s);
      }
    }
  }

  function Elements(xs: seq<string>): set<string>
  {
    set x | x in xs
  }

  /** The symbols that received a notification attempt. */
  function Alerted(sent: seq<Alert>): set<string>
  {
    set k | 0 <= k < |sent| :: sent[k].symbol
  }

  predicate Distinct(xs: seq<string>)
  {
    forall j, k :: 0 <= j < k < |xs| ==> xs[j] != xs[k]
  }

  /**
   * The evaluation pass over a snapshot of the registry: every active watch is
   * evaluated on its fetch, and each one that fires is marked for removal and
   * gets one notification attempt (delivery failures are not observed). Marked
   * symbols are distinct and are exactly the triggered ones.
   */
  method CollectTriggered(symbols: map<string, Watch>, fetched: map<string, Fetch>)
    returns (toRemove: seq<string>, sent: seq<Alert>)
    ensures Elements(toRemove) == Triggered(symbols, fetched)
    ensures Distinct(toRemove)
    ensures |sent| == |toRemove|
    ensures forall k :: 0 <= k < |sent| ==>
              sent[k].symbol == toRemove[k] && sent[k] == AlertFor(symbols, fetched, toRemove[k])
    ensures forall k :: 0 <= k < |sent| ==> sent[k].symbol in symbols && symbols[sent[k].symbol].active
  {
    toRemove, sent := [], [];
    var pending := symbols.Keys;
    ghost var done: set<string> := {};
    while pending != {}
      invariant pending <= symbols.Keys && done == symbols.Keys - pending
      invariant Collected(symbols, fetched, done, toRemove, sent)
      decreases pending
    {
      var s :| s in pending;
      var w := symbols[s];
      CollectStep(symbols, fetched, done, toRemove, sent, s);
      if w.active {
        var outcome := Evaluate(w, FetchFor(fetched, s));
        if outcome.Some? {
          sent := sent + [Alert(s, w.webhookUrl, outcome.value)];
          toRemove := toRemove + [s];
        }
      }
      pending := pending - {s};
      done := done + {s};
    }
    CollectDone(symbols, fetched, toRemove, sent);
  }

  /**
   * The state of the pass after visiting `done`: the marks are distinct, are
   * the symbols of `done` that fire, and each has its notification.
   */
  ghost predicate Collected(symbols: map<string, Watch>, fetched: map<string, Fetch>, done: set<string>,
                            toRemove: seq<string>, sent: seq<Alert>)
  {
    && |sent| == |toRemove|
    && Elements(toRemove) == TriggeredAmong(symbols, fetched, done)
    && Distinct(toRemove)
    && forall k :: 0 <= k < |sent| ==>
         toRemove[k] in Triggered(symbols, fetched) &&
         sent[k].symbol == toRemove[k] && sent[k] == AlertFor(symbols, fetched, toRemove[k])
  }

  /** One iteration of the pass keeps Collected. */
  lemma CollectStep(symbols: map<string, Watch>, fetched: map<string, Fetch>, done: set<string>,
                    toRemove: seq<string>, sent: seq<Alert>, s: string)
    requires s in symbols && s !in done && done <= symbols.Keys
    requires Collected(symbols, fetched, done, toRemove, sent)
    ensures var w := symbols[s];
      if w.active && Evaluate(w, FetchFor(fetched, s)).Some? then
        Collected(symbols, fetched, done + {s}, toRemove + [s],
                  sent + [Alert(s, w.webhookUrl, Evaluate(w, FetchFor(fetched, s)).value)])
      else
        Collected(symbols, fetched, done + {s}, toRemove, sent)
  {
    TriggeredStep(symbols, fetched, done, s);
    var w := symbols[s];
    if w.active && Evaluate(w, FetchFor(fetched, s)).Some? {
      assert s in Triggered(symbols, fetched);
      AppendMark(toRemove, s);
    }
  }

  /** At the end of the pass the marks are the triggered set, and every notified watch is active. */
  lemma CollectDone(symbols: map<string, Watch>, fetched: map<string, Fetch>, toRemove: seq<string>, sent: seq<Alert>)
    requires Collected(symbols, fetched, symbols.Keys, toRemove, sent)
    ensures Elements(toRemove) == Triggered(symbols, fetched)
    ensures Distinct(toRemove) && |sent| == |toRemove|
    ensures forall k :: 0 <= k < |sent| ==>
              sent[k].symbol == toRemove[k] && sent[k] == AlertFor(symbols, fetched, toRemove[k])
    ensures forall k :: 0 <= k < |sent| ==> sent[k].symbol in symbols && symbols[sent[k].symbol].active
  {
  }

  /** Visiting one more symbol adds it to the triggered set exactly when it fires. */
  lemma TriggeredStep(symbols: map<string, Watch>, fetched: map<string, Fetch>, done: set<string>, s: string)
    requires s in symbols && s !in done
    ensures TriggeredAmong(symbols, fetched, done + {s}) ==
            TriggeredAmong(symbols, fetched, done) +
            (if Outcome(symbols[s], FetchFor(fetched, s)).Some? then {s} else {})
  {
  }

  /** Marking a symbol not yet marked keeps the marks distinct. */
  lemma AppendMark(xs: seq<string>, x: string)
    requires Distinct(xs) && x !in Elements(xs)
    ensures Distinct(xs + [x]) && Elements(xs + [x]) == Elements(xs) + {x}
  {
  }

  /** Alerts that follow the marks position by position notify exactly the marked symbols. */
  lemma AlertsMatchMarks(toRemove: seq<string>, sent: seq<Alert>)
    requires |sent| == |toRemove|
    requires forall k :: 0 <= k < |sent| ==> sent[k].symbol == toRemove[k]
    ensures Alerted(sent) == Elements(toRemove)
  {
    forall x | x in Elements(toRemove) ensures x in Alerted(sent) {
      var k :| 0 <= k < |toRemove| && toRemove[k] == x;
      assert sent[k].symbol == x;
    }
  }

  class WatchRegistry {
    /** The in-memory registry: symbol to watch. */
    var symbols: map<string, Watch>
    /** The contents of the symbols file. */
    ghost var persisted: map<string, Watch>
    /** How many times the symbols file has been rewritten. */
    ghost var saves: nat

    /** The symbols file holds exactly the in-memory map. */
    ghost predicate Synced()
      reads this
    {
      persisted == symbols
    }

    /** Start-up: the stored map, or the empty map when there is no file yet. */
    constructor Load(stored: Option<map<string, Watch>>)
      ensures symbols == persisted && Synced()
      ensures stored.Some? ==> symbols == stored.value
      ensures stored.None? ==> symbols == map[]
      ensures saves == 0
    {
      symbols := if stored.Some? then stored.value else map[];
      persisted := symbols;
      saves := 0;
    }

    /** Rewrites the symbols file with the whole in-memory map. */
    method Save()
      modifies this`persisted, this`saves
      ensures persisted == symbols && saves == old(saves) + 1
    {
      persisted := symbols;
      saves := saves + 1;
    }

    /** Add (or overwrite) a watch from the form; only a non-empty symbol is added. */
    method Add(symbol: string, interval: string, calcMethod: string, period: int,
               condition: string, webhookUrl: string) returns (added: bool)
      modifies this`symbols, this`persisted, this`saves
      ensures added <==> symbol != ""
      ensures added ==> symbols == old(symbols)[symbol := Watch(interval, calcMethod, period, condition, webhookUrl, true)]
      ensures added ==> persisted == symbols && saves == old(saves) + 1
      ensures !added ==> symbols == old(symbols) && persisted == old(persisted) && saves == old(saves)
      ensures old(Synced()) ==> Synced()
    {
      added := symbol != "";
      if added {
        symbols := symbols[symbol := Watch(interval, calcMethod, period, condition, webhookUrl, true)];
        Save();
      }
    }

    /** Remove a watch; `pop` on a missing key raises before the save. */
    method Remove(symbol: string) returns (found: bool)
      modifies this`symbols, this`persisted, this`saves
      ensures found <==> symbol in old(symbols)
      ensures found ==> symbols == old(symbols) - {symbol} && persisted == symbols && saves == old(saves) + 1
      ensures !found ==> symbols == old(symbols) && persisted == old(persisted) && saves == old(saves)
      ensures old(Synced()) ==> Synced()
    {
      found := symbol in symbols;
      if found {
        symbols := symbols - {symbol};
        Save();
      }
    }

    /** Deactivate a watch: only its `active` flag changes; a missing key raises before the save. */
    method Deactivate(symbol: string) returns (found: bool)
      modifies this`symbols, this`persisted, this`saves
      ensures found <==> symbol in old(symbols)
      ensures found ==> symbols == old(symbols)[symbol := old(symbols)[symbol].(active := false)]
      ensures found ==> persisted == symbols && saves == old(saves) + 1
      ensures !found ==> symbols == old(symbols) && persisted == old(persisted) && saves == old(saves)
      ensures old(Synced()) ==> Synced()
    {
      found := symbol in symbols;
      if found {
        symbols := symbols[symbol := symbols[symbol].(active := false)];
        Save();
      }
    }

    /**
     * One pass of the evaluation loop: the triggered symbols are collected and
     * notified, then removed in a batch, and the file is rewritten once, only
     * if something was removed.
     */
    method Tick(fetched: map<string, Fetch>) returns (sent: seq<Alert>)
      modifies this`symbols, this`persisted, this`saves
      ensures symbols == old(symbols) - Triggered(old(symbols), fetched)
      ensures forall s :: s in old(symbols) && !old(symbols)[s].active ==> s in symbols && symbols[s] == old(symbols)[s]
      ensures Triggered(old(symbols), fetched) == {} ==> persisted == old(persisted) && saves == old(saves)
      ensures Triggered(old(symbols), fetched) != {} ==> persisted == symbols && saves == old(saves) + 1
      ensures Alerted(sent) == Triggered(old(symbols), fetched)
      ensures forall j, k :: 0 <= j < k < |sent| ==> sent[j].symbol != sent[k].symbol
      ensures forall k :: 0 <= k < |sent| ==>
                sent[k].symbol in Triggered(old(symbols), fetched) &&
                sent[k] == AlertFor(old(symbols), fetched, sent[k].symbol)
      ensures forall k :: 0 <= k < |sent| ==> old(symbols)[sent[k].symbol].active
      ensures old(Synced()) ==> Synced()
    {
      var toRemove;
      toRemove, sent := CollectTriggered(symbols, fetched);
      AlertsMatchMarks(toRemove, sent);
      RemoveBatch(toRemove);
      if |toRemove| > 0 {
        assert toRemove[0] in Elements(toRemove);
        Save();
      }
    }

    /** The batch removal after the pass: each marked symbol is popped once. */
    method RemoveBatch(toRemove: seq<string>)
      requires Distinct(toRemove) && Elements(toRemove) <= symbols.Keys
      modifies this`symbols
      ensures symbols == old(symbols) - Elements(toRemove)
    {
      var i := 0;
      while i < |toRemove|
        invariant 0 <= i <= |toRemove|
        invariant symbols == old(symbols) - Elements(toRemove[..i])
      {
        assert toRemove[i] in symbols by {
          assert toRemove[i] in Elements(toRemove);
          assert toRemove[i] !in Elements(toRemove[..i]);
        }
        symbols := symbols - {toRemove[i]};
        assert Elements(toRemove[..i + 1]) == Elements(toRemove[..i]) + {toRemove[i]} by {
          assert toRemove[..i + 1] == toRemove[..i] + [toRemove[i]];
        }
        i := i + 1;
      }
      assert toRemove[..i] == toRemove;
    }
  }
}
