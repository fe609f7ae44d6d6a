/** The tool registry with its sliding-window rate limiter (tools/registry.py) and the
    audited executor in front of it (tools/execution.py). Times are seconds of a clock that
    never goes back. */
module Registry {
  import opened Dicts
  import opened Tools

  const WINDOW: real := 60.0

  // ------------------------------------------------------------ the limiter on full histories

  ghost predicate Sorted(h: seq<real>) {
    forall i, j :: 0 <= i < j < |h| ==> h[i] <= h[j]
  }

  /** The entries of the last 60 seconds, in order. */
  function Recent(h: seq<real>, now: real): seq<real> {
    if h == [] then []
    else
      var last := h[|h| - 1];
      Recent(h[..|h| - 1], now) + if now - last < WINDOW then [last] else []
  }

  /** The intended rule, on the full history of admitted calls. */
  function Admit(h: seq<real>, now: real, limit: int): seq<real> {
    if |Recent(h, now)| < limit then h + [now] else h
  }

  /** The admitted calls of a whole call history. */
  function AdmitAll(calls: seq<real>, limit: int): seq<real> {
    if calls == [] then []
    else Admit(AdmitAll(calls[..|calls| - 1], limit), calls[|calls| - 1], limit)
  }

  lemma {:induction false} RecentAtLeast(h: seq<real>, now: real, i: nat)
    requires Sorted(h) && i < |h| && now - h[i] < WINDOW
    ensures |Recent(h, now)| >= |h| - i
  {
    var n := |h| - 1;
    if i < n {
      RecentAtLeast(h[..n], now, i);
    }
  }

  /** Calls `limit` positions apart are at least a window apart. */
  ghost predicate Spaced(h: seq<real>, limit: nat) {
    forall i, j :: 0 <= i && j == i + limit && j < |h| ==> h[j] - h[i] >= WINDOW
  }

  lemma AdmitKeepsSpaced(h: seq<real>, now: real, limit: nat)
    requires Sorted(h) && Spaced(h, limit) && limit > 0 && (h != [] ==> h[|h| - 1] <= now)
    ensures Sorted(Admit(h, now, limit)) && Spaced(Admit(h, now, limit), limit)
  {
    var next := h + [now];
    forall i, j | 0 <= i < j < |next| ensures next[i] <= next[j] {
      assert j == |h| ==> h[i] <= h[|h| - 1];
    }
    if |Recent(h, now)| < limit && |h| >= limit {
      var i := |h| - limit;
      if now - h[i] < WINDOW {
        RecentAtLeast(h, now, i);
      }
    }
  }

  lemma {:induction false} AdmitAllSpaced(calls: seq<real>, limit: nat)
    requires Sorted(calls) && limit > 0
    ensures var h := AdmitAll(calls, limit);
            Sorted(h) && Spaced(h, limit) && (h != [] ==> calls != [] && h[|h| - 1] <= calls[|calls| - 1])
  {
    if calls != [] {
      var n := |calls| - 1;
      AdmitAllSpaced(calls[..n], limit);
      var h := AdmitAll(calls[..n], limit);
      assert h != [] ==> h[|h| - 1] <= calls[n];
      AdmitKeepsSpaced(h, calls[n], limit);
    }
  }

  /** No 60-second window ever holds more admitted calls than the limit. */
  lemma WindowHoldsLimit(calls: seq<real>, limit: nat)
    requires Sorted(calls) && limit > 0
    ensures var h := AdmitAll(calls, limit);
            forall a, b :: 0 <= a <= b < |h| && h[b] - h[a] < 60.0 ==> b - a + 1 <= limit
  {
    AdmitAllSpaced(calls, limit);
    var h := AdmitAll(calls, limit);
    forall a, b | 0 <= a && a + limit <= b < |h| ensures h[b] - h[a] >= WINDOW {
      var c := a + limit;
      assert h[c] - h[a] >= WINDOW;
      assert c < b ==> h[c] <= h[b];
    }
  }

  lemma {:induction false} RecentIgnoresOld(gone: seq<real>, kept: seq<real>, now: real)
    requires forall i :: 0 <= i < |gone| ==> now - gone[i] >= WINDOW
    ensures Recent(gone + kept, now) == Recent(kept, now)
    decreases |gone| + |kept|
  {
    if kept != [] {
      var n := |kept| - 1;
      assert (gone + kept)[..|gone + kept| - 1] == gone + kept[..n];
      RecentIgnoresOld(gone, kept[..n], now);
    } else if gone != [] {
      var n := |gone| - 1;
      assert (gone + kept)[..|gone + kept| - 1] == gone[..n] + kept;
      RecentIgnoresOld(gone[..n], kept, now);
    }
  }

  lemma SuffixGrows(h: seq<real>, cut: nat)
    requires h != [] && cut < |h|
    ensures h[..|h| - 1][cut..] + [h[|h| - 1]] == h[cut..]
    ensures forall i :: 0 <= i < |h| - 1 ==> h[..|h| - 1][i] == h[i]
  {
  }

  /** On a sorted log pruning drops exactly the entries that are 60 seconds old or older, which
      are a prefix. */
  lemma {:induction false} RecentIsSuffix(h: seq<real>, now: real) returns (cut: nat)
    requires Sorted(h)
    ensures cut <= |h| && Recent(h, now) == h[cut..]
    ensures forall i :: 0 <= i < cut ==> now - h[i] >= 60.0
    ensures forall i :: cut <= i < |h| ==> now - h[i] < 60.0
  {
    var n := |h| - 1;
    if h == [] {
      cut := 0;
    } else if now - h[n] < WINDOW {
      cut := RecentIsSuffix(h[..n], now);
      SuffixGrows(h, cut);
    } else {
      cut := |h|;
      AllOld(h, now);
    }
  }

  lemma AllOld(h: seq<real>, now: real)
    requires Sorted(h) && h != [] && now - h[|h| - 1] >= WINDOW
    ensures Recent(h, now) == [] && forall i :: 0 <= i < |h| ==> now - h[i] >= WINDOW
  {
    forall i | 0 <= i < |h| ensures now - h[i] >= WINDOW {
      assert i < |h| - 1 ==> h[i] <= h[|h| - 1];
    }
    RecentIgnoresOld(h, [], now);
    assert h + [] == h;
  }

  /** `log` is what remains of the full history `full`: what it lost is out of every window
      that can still be asked about. */
  ghost predicate PrunedLog(full: seq<real>, log: seq<real>, clock: real) {
    && Sorted(full) && (forall i :: 0 <= i < |full| ==> full[i] <= clock)
    && exists cut :: 0 <= cut <= |full| && log == full[cut..] && forall i :: 0 <= i < cut ==> clock - full[i] >= WINDOW
  }

  lemma PrunedLater(full: seq<real>, log: seq<real>, clock: real, now: real)
    requires PrunedLog(full, log, clock) && now >= clock
    ensures PrunedLog(full, log, now)
  {
    var cut :| 0 <= cut <= |full| && log == full[cut..] && forall i :: 0 <= i < cut ==> clock - full[i] >= WINDOW;
  }

  lemma RecentOfSuffix(full: seq<real>, cut: nat, now: real)
    requires cut <= |full| && forall i :: 0 <= i < cut ==> now - full[i] >= WINDOW
    ensures Recent(full[cut..], now) == Recent(full, now)
  {
    var gone := full[..cut];
    assert full == gone + full[cut..];
    assert forall i :: 0 <= i < |gone| ==> now - gone[i] >= WINDOW;
    RecentIgnoresOld(gone, full[cut..], now);
  }

  /** Pruning the pruned log again gives what pruning the full history gives. */
  lemma PruneAgain(full: seq<real>, log: seq<real>, now: real)
    requires PrunedLog(full, log, now)
    ensures Recent(log, now) == Recent(full, now) && PrunedLog(full, Recent(log, now), now)
  {
    var cut :| 0 <= cut <= |full| && log == full[cut..] && forall i :: 0 <= i < cut ==> now - full[i] >= WINDOW;
    RecentOfSuffix(full, cut, now);
    var kept := RecentIsSuffix(full, now);
  }

  lemma SortedAppend(h: seq<real>, now: real)
    requires Sorted(h) && forall i :: 0 <= i < |h| ==> h[i] <= now
    ensures Sorted(h + [now])
  {
    forall i, j | 0 <= i < j < |h + [now]| ensures (h + [now])[i] <= (h + [now])[j] {
      if j < |h| {
        assert h[i] <= h[j];
      }
    }
  }

  lemma PrunedAppend(full: seq<real>, log: seq<real>, now: real)
    requires PrunedLog(full, log, now)
    ensures PrunedLog(full + [now], log + [now], now)
  {
    var cut :| 0 <= cut <= |full| && log == full[cut..] && forall i :: 0 <= i < cut ==> now - full[i] >= WINDOW;
    SortedAppend(full, now);
    var longer := full + [now];
    assert log + [now] == longer[cut..];
    assert forall i :: 0 <= i < cut ==> now - longer[i] >= WINDOW;
  }

  function Entry(m: map<string, seq<real>>, name: string): seq<real> {
    if name in m then m[name] else []
  }

  /** Per tool, the kept log agrees with the full history. */
  ghost predicate AllPruned(full: map<string, seq<real>>, log: map<string, seq<real>>, clock: real) {
    forall name :: PrunedLog(Entry(full, name), Entry(log, name), clock)
  }

  lemma AllPrunedLater(full: map<string, seq<real>>, log: map<string, seq<real>>, clock: real, now: real)
    requires AllPruned(full, log, clock) && now >= clock
    ensures AllPruned(full, log, now)
  {
    forall name ensures PrunedLog(Entry(full, name), Entry(log, name), now) {
      PrunedLater(Entry(full, name), Entry(log, name), clock, now);
    }
  }

  lemma AllPrunedPut(full: map<string, seq<real>>, log: map<string, seq<real>>, now: real,
                     full': map<string, seq<real>>, log': map<string, seq<real>>, name: string)
    requires AllPruned(full, log, now) && PrunedLog(Entry(full', name), Entry(log', name), now)
    requires forall other :: other != name ==> Entry(full', other) == Entry(full, other)
    requires forall other :: other != name ==> Entry(log', other) == Entry(log, other)
    ensures AllPruned(full', log', now)
  {
    forall other ensures PrunedLog(Entry(full', other), Entry(log', other), now) {
      assert PrunedLog(Entry(full, other), Entry(log, other), now);
    }
  }

  /** Deciding on the kept log is deciding on the full history. */
  lemma KeptLogDecides(full: map<string, seq<real>>, log: map<string, seq<real>>, clock: real, now: real, name: string)
    requires AllPruned(full, log, clock) && now >= clock
    ensures Recent(Entry(log, name), now) == Recent(Entry(full, name), now)
  {
    PrunedLater(Entry(full, name), Entry(log, name), clock, now);
    PruneAgain(Entry(full, name), Entry(log, name), now);
  }

  /** Pruning keeps log and history in agreement, */
  lemma PrunedRefusal(full: map<string, seq<real>>, log: map<string, seq<real>>, clock: real, now: real, name: string)
    requires AllPruned(full, log, clock) && now >= clock
    ensures AllPruned(full, log[name := Recent(Entry(log, name), now)], now)
  {
    AllPrunedLater(full, log, clock, now);
    PrunedLater(Entry(full, name), Entry(log, name), clock, now);
    PruneAgain(Entry(full, name), Entry(log, name), now);
    AllPrunedPut(full, log, now, full, log[name := Recent(Entry(log, name), now)], name);
  }

  /** and so does admitting the new call. */
  lemma PrunedAdmission(full: map<string, seq<real>>, log: map<string, seq<real>>, clock: real, now: real, name: string)
    requires AllPruned(full, log, clock) && now >= clock
    ensures AllPruned(full[name := Entry(full, name) + [now]], log[name := Recent(Entry(log, name), now) + [now]], now)
  {
    var f, kept := Entry(full, name), Recent(Entry(log, name), now);
    AllPrunedLater(full, log, clock, now);
    PrunedLater(f, Entry(log, name), clock, now);
    PruneAgain(f, Entry(log, name), now);
    PrunedAppend(f, kept, now);
    var full', log' := full[name := f + [now]], log[name := kept + [now]];
    assert Entry(full', name) == f + [now] && Entry(log', name) == kept + [now];
    AllPrunedPut(full, log, now, full', log', name);
  }

  /** The kept log decides as the history does, and stays in agreement either way. */
  lemma LogStaysPruned(full: map<string, seq<real>>, log: map<string, seq<real>>, clock: real, now: real, name: string)
    requires AllPruned(full, log, clock) && now >= clock
    ensures Recent(Entry(log, name), now) == Recent(Entry(full, name), now)
    ensures AllPruned(full, log[name := Recent(Entry(log, name), now)], now)
    ensures AllPruned(full[name := Entry(full, name) + [now]], log[name := Recent(Entry(log, name), now) + [now]], now)
  {
    KeptLogDecides(full, log, clock, now, name);
    PrunedRefusal(full, log, clock, now, name);
    PrunedAdmission(full, log, clock, now, name);
  }

  // ------------------------------------------------------------ the registry

  /** No allowed specialists means all of them; a limit of 0 (or none) means unlimited. */
  datatype ToolSchema = ToolSchema(name: string, allowedSpecialists: set<string>, rateLimit: int)

  datatype ToolResult = ToolResult(content: string, error: Option<string>)

  /** What the tool itself would do if it is run. */
  datatype ToolReply = Returns(result: ToolResult) | Throws(message: string)

  /** A tool that throws is an error without content. */
  function Produced(reply: ToolReply): ToolResult {
    match reply case Returns(r) => r case Throws(message) => ToolResult("", Some(message))
  }

  /** The error of a call that runs nothing. */
  function Refusal(tools: map<string, ToolSchema>, name: string, specialist: string): ToolResult {
    ToolResult("", Some(
      if name !in tools then "Tool " + name + " not found"
      else if tools[name].allowedSpecialists != {} && specialist !in tools[name].allowedSpecialists then
        "Specialist " + specialist + " not permitted to use " + name
      else "Rate limit exceeded for " + name))
  }

  class ToolRegistry {
    var tools: map<string, ToolSchema>
    var usage: map<string, seq<real>>
    ghost var admitted: map<string, seq<real>>
    ghost var clock: real
    ghost var runs: seq<string>

    ghost function AdmittedCalls(name: string): seq<real> reads `admitted {
      Entry(admitted, name)
    }

    ghost predicate Valid() reads `usage, `admitted, `clock {
      AllPruned(admitted, usage, clock)
    }

    constructor (ghost start: real)
      ensures Valid() && tools == map[] && admitted == map[] && runs == [] && clock == start
    {
      tools, usage, admitted, clock, runs := map[], map[], map[], start, [];
      new;
      var none: seq<real> := [];
      assert none == none[0..];
      assert PrunedLog(none, none, clock);
    }

    method Register(schema: ToolSchema)
      requires Valid()
      modifies `tools
      ensures Valid() && tools == old(tools)[schema.name := schema]
    {
      tools := tools[schema.name := schema];
    }

    predicate Limited(name: string) reads this {
      name in tools && tools[name].rateLimit != 0
    }

    /** `_check_rate_limit`: the pruned log decides exactly as the full history would. */
    method CheckRateLimit(name: string, now: real) returns (ok: bool)
      requires Valid() && now >= clock
      modifies `usage, `admitted, `clock
      ensures Valid() && clock == now
      ensures ok <==> !Limited(name) || |Recent(old(AdmittedCalls(name)), now)| < tools[name].rateLimit
      ensures admitted == if ok then old(admitted)[name := old(AdmittedCalls(name)) + [now]] else old(admitted)
      ensures Limited(name) ==> AdmittedCalls(name) == Admit(old(AdmittedCalls(name)), now, tools[name].rateLimit)
    {
      LogStaysPruned(admitted, usage, clock, now, name);
      var timestamps := Prune(Entry(usage, name), now);
      ok := !(Limited(name) && |timestamps| >= tools[name].rateLimit);
      clock := now;
      if ok {
        usage := usage[name := timestamps + [now]];
        admitted := admitted[name := Entry(admitted, name) + [now]];
      } else {
        usage := usage[name := timestamps];
      }
    }

    /** `ToolRegistry.execute`: unknown tools, other specialists and calls over the limit
        are refused without running anything. */
    method Execute(name: string, specialist: string, now: real, reply: ToolReply) returns (result: ToolResult)
      requires Valid() && now >= clock
      modifies `usage, `admitted, `clock, `runs
      ensures Valid() && clock <= now
      ensures runs == old(runs) || runs == old(runs) + [name]
      ensures runs == old(runs) + [name] <==>
                && name in tools && Permitted(name, specialist)
                && (Limited(name) ==> |Recent(old(AdmittedCalls(name)), now)| < tools[name].rateLimit)
      ensures result == if runs == old(runs) then Refusal(tools, name, specialist) else Produced(reply)
      ensures runs == old(runs) ==>
                result == ToolResult("", Some(
                  if name !in tools then "Tool " + name + " not found"
                  else if tools[name].allowedSpecialists != {} && specialist !in tools[name].allowedSpecialists then
                    "Specialist " + specialist + " not permitted to use " + name
                  else "Rate limit exceeded for " + name))
      ensures runs != old(runs) && reply.Returns? ==> result == reply.result
      ensures runs != old(runs) && reply.Throws? ==> result == ToolResult("", Some(reply.message))
      ensures runs == old(runs) ==> admitted == old(admitted)
      ensures runs != old(runs) ==>
                admitted == if !Limited(name) then old(admitted)
                            else old(admitted)[name := old(AdmittedCalls(name)) + [now]]
    {
      if name !in tools {
        return ToolResult("", Some("Tool " + name + " not found"));
      }
      if !Permitted(name, specialist) {
        return ToolResult("", Some("Specialist " + specialist + " not permitted to use " + name));
      }
      if Limited(name) {
        var ok := CheckRateLimit(name, now);
        if !ok {
          return ToolResult("", Some("Rate limit exceeded for " + name));
        }
      }
      runs := runs + [name];
      return match reply case Returns(r) => r case Throws(message) => ToolResult("", Some(message));
    }

    predicate Permitted(name: string, specialist: string)
      requires name in tools
      reads this
    {
      tools[name].allowedSpecialists == {} || specialist in tools[name].allowedSpecialists
    }
  }

  // ------------------------------------------------------------ whole sessions

  datatype Call = Call(name: string, specialist: string, now: real, reply: ToolReply)

  function Registered(schemas: seq<ToolSchema>): map<string, ToolSchema> {
    if schemas == [] then map[]
    else var last := schemas[|schemas| - 1]; Registered(schemas[..|schemas| - 1])[last.name := last]
  }

  /** The call gets as far as the rate limit. */
  predicate Reaches(tools: map<string, ToolSchema>, c: Call) {
    c.name in tools && (tools[c.name].allowedSpecialists == {} || c.specialist in tools[c.name].allowedSpecialists)
  }

  /** The times of the calls of one tool that got as far as its rate limit. */
  function TimesOf(tools: map<string, ToolSchema>, calls: seq<Call>, name: string): seq<real> {
    if calls == [] then []
    else
      var last := calls[|calls| - 1];
      TimesOf(tools, calls[..|calls| - 1], name) + if last.name == name && Reaches(tools, last) then [last.now] else []
  }

  /** What the intended rule, on the full history, admits of one tool. */
  function AdmittedOf(tools: map<string, ToolSchema>, calls: seq<Call>, name: string): seq<real>
    requires name in tools
  {
    AdmitAll(TimesOf(tools, calls, name), tools[name].rateLimit)
  }

  /** Whether the call after `before` runs its tool. */
  predicate Runs(tools: map<string, ToolSchema>, before: seq<Call>, c: Call) {
    && Reaches(tools, c)
    && (tools[c.name].rateLimit != 0 ==> |Recent(AdmittedOf(tools, before, c.name), c.now)| < tools[c.name].rateLimit)
  }

  ghost predicate Monotone(calls: seq<Call>) {
    forall i, j :: 0 <= i < j < |calls| ==> calls[i].now <= calls[j].now
  }

  lemma {:induction false} TimesSorted(tools: map<string, ToolSchema>, calls: seq<Call>, name: string)
    requires Monotone(calls)
    ensures Sorted(TimesOf(tools, calls, name))
    ensures calls != [] ==> forall t :: t in TimesOf(tools, calls, name) ==> t <= calls[|calls| - 1].now
  {
    if calls != [] {
      var front, last := calls[..|calls| - 1], calls[|calls| - 1];
      TimesSorted(tools, front, name);
      var times := TimesOf(tools, front, name);
      assert front != [] ==> front[|front| - 1].now <= last.now;
      assert forall i :: 0 <= i < |times| ==> times[i] in times;
    }
  }

  /** Over any session of calls no 60-second window holds more runs of a tool than its limit. */
  lemma SessionHoldsLimit(tools: map<string, ToolSchema>, calls: seq<Call>, name: string, a: nat, b: nat)
    requires Monotone(calls) && name in tools && tools[name].rateLimit > 0
    requires var h := AdmittedOf(tools, calls, name); a <= b < |h| && h[b] - h[a] < 60.0
    ensures b - a + 1 <= tools[name].rateLimit
  {
    var times, limit := TimesOf(tools, calls, name), tools[name].rateLimit;
    TimesSorted(tools, calls, name);
    WindowHoldsLimit(times, limit);
    assert AdmittedOf(tools, calls, name) == AdmitAll(times, limit);
  }

  lemma TimesNext(tools: map<string, ToolSchema>, before: seq<Call>, c: Call, name: string)
    ensures TimesOf(tools, before + [c], name) ==
            TimesOf(tools, before, name) + if c.name == name && Reaches(tools, c) then [c.now] else []
  {
    assert (before + [c])[..|before|] == before;
  }

  lemma AdmitNext(times: seq<real>, now: real, limit: int)
    ensures AdmitAll(times + [now], limit) == Admit(AdmitAll(times, limit), now, limit)
  {
    assert (times + [now])[..|times|] == times;
  }

  lemma AdmittedNext(tools: map<string, ToolSchema>, before: seq<Call>, c: Call, name: string)
    requires name in tools && tools[name].rateLimit != 0
    ensures AdmittedOf(tools, before + [c], name) ==
            AdmittedOf(tools, before, name) + if c.name == name && Runs(tools, before, c) then [c.now] else []
  {
    var times, limit := TimesOf(tools, before, name), tools[name].rateLimit;
    TimesNext(tools, before, c, name);
    if c.name == name && Reaches(tools, c) {
      AdmitNext(times, c.now, limit);
    } else {
      assert times + [] == times;
    }
  }

  function Outcome(tools: map<string, ToolSchema>, before: seq<Call>, c: Call): ToolResult {
    if Runs(tools, before, c) then Produced(c.reply) else Refusal(tools, c.name, c.specialist)
  }

  /** The registry has served these calls: its log stands for what the intended rule admits. */
  ghost predicate Served(registry: ToolRegistry, tools: map<string, ToolSchema>, calls: seq<Call>)
    reads registry
  {
    && registry.Valid() && registry.tools == tools
    && forall name :: name in tools && tools[name].rateLimit != 0 ==>
         registry.AdmittedCalls(name) == AdmittedOf(tools, calls, name)
  }

  method RegisterAll(schemas: seq<ToolSchema>, ghost start: real) returns (registry: ToolRegistry)
    ensures fresh(registry) && Served(registry, Registered(schemas), []) && registry.clock == start
  {
    registry := new ToolRegistry(start);
    for n := 0 to |schemas|
      invariant fresh(registry) && registry.Valid() && registry.tools == Registered(schemas[..n])
      invariant registry.admitted == map[] && registry.clock == start
    {
      assert schemas[..n + 1][..n] == schemas[..n];
      registry.Register(schemas[n]);
    }
    assert schemas[..|schemas|] == schemas;
  }

  method Serve(registry: ToolRegistry, ghost tools: map<string, ToolSchema>, ghost before: seq<Call>, c: Call)
    returns (result: ToolResult)
    requires Served(registry, tools, before) && registry.clock <= c.now
    modifies registry
    ensures Served(registry, tools, before + [c]) && registry.clock <= c.now
    ensures result == Outcome(tools, before, c)
  {
    result := registry.Execute(c.name, c.specialist, c.now, c.reply);
    forall name | name in tools && tools[name].rateLimit != 0
      ensures registry.AdmittedCalls(name) == AdmittedOf(tools, before + [c], name)
    {
      AdmittedNext(tools, before, c, name);
    }
  }

  /** The first n calls of a session returned what the intended rule says on all before them. */
  ghost predicate ResultsOf(tools: map<string, ToolSchema>, calls: seq<Call>, results: seq<ToolResult>, n: nat)
    requires n <= |calls|
  {
    && |results| == n
    && forall i :: 0 <= i < n ==> results[i] == Outcome(tools, calls[..i], calls[i])
  }

  lemma ResultsNext(tools: map<string, ToolSchema>, calls: seq<Call>, results: seq<ToolResult>, n: nat,
                    result: ToolResult)
    requires n < |calls| && ResultsOf(tools, calls, results, n) && result == Outcome(tools, calls[..n], calls[n])
    ensures ResultsOf(tools, calls, results + [result], n + 1)
  {
  }

  /** One more call of a session. */
  method ServeNext(registry: ToolRegistry, ghost tools: map<string, ToolSchema>, calls: seq<Call>, n: nat,
                   results: seq<ToolResult>)
    returns (next: seq<ToolResult>)
    requires n < |calls| && Monotone(calls)
    requires Served(registry, tools, calls[..n]) && registry.clock <= calls[n].now
    requires ResultsOf(tools, calls, results, n)
    modifies registry
    ensures Served(registry, tools, calls[..n + 1])
    ensures n + 1 < |calls| ==> registry.clock <= calls[n + 1].now
    ensures ResultsOf(tools, calls, next, n + 1)
  {
    assert calls[..n + 1] == calls[..n] + [calls[n]];
    var result := Serve(registry, tools, calls[..n], calls[n]);
    next := results + [result];
    ResultsNext(tools, calls, results, n, result);
  }

  method ServeAll(registry: ToolRegistry, ghost tools: map<string, ToolSchema>, calls: seq<Call>)
    returns (results: seq<ToolResult>)
    requires Monotone(calls) && Served(registry, tools, [])
    requires calls != [] ==> registry.clock <= calls[0].now
    modifies registry
    ensures Served(registry, tools, calls) && ResultsOf(tools, calls, results, |calls|)
  {
    results := [];
    assert calls[..0] == [];
    for n := 0 to |calls|
      invariant Served(registry, tools, calls[..n])
      invariant n < |calls| ==> registry.clock <= calls[n].now
      invariant ResultsOf(tools, calls, results, n)
    {
      results := ServeNext(registry, tools, calls, n, results);
    }
    assert calls[..|calls|] == calls;
  }

  /** A registry serves a whole session: every call returns what the intended rule, on the
      full history, says, and the log stands for exactly the admitted calls. */
  method RunSession(schemas: seq<ToolSchema>, calls: seq<Call>)
    returns (results: seq<ToolResult>, registry: ToolRegistry)
    requires Monotone(calls)
    ensures |results| == |calls|
    ensures forall i :: 0 <= i < |calls| ==> results[i] == Outcome(Registered(schemas), calls[..i], calls[i])
    ensures Served(registry, Registered(schemas), calls)
  {
    registry := RegisterAll(schemas, if calls == [] then 0.0 else calls[0].now);
    results := ServeAll(registry, Registered(schemas), calls);
  }

  /** The list comprehension of `_check_rate_limit`. */
  method Prune(log: seq<real>, now: real) returns (kept: seq<real>)
    ensures kept == Recent(log, now)
  {
    kept := [];
    for n := 0 to |log|
      invariant kept == Recent(log[..n], now)
    {
      assert log[..n + 1][..n] == log[..n];
      if now - log[n] < WINDOW {
        kept := kept + [log[n]];
      }
    }
    assert log[..|log|] == log;
  }

  // ------------------------------------------------------------ the audited executor

  datatype AuditRow = AuditRow(call: Signature, specialist: string, result: ToolResult, sensitive: bool)

  class AuditLog {
    var rows: seq<AuditRow>

    constructor ()
      ensures rows == []
    {
      rows := [];
    }
  }

  /** `execute_tool`: a call that still needs a decision leaves no run and no audit row;
      every other call leaves exactly one row, with the result it returned. */
  method ExecuteTool(registry: ToolRegistry, audit: AuditLog?, sensitive: set<string>, call: Signature,
                     specialist: string, approved: Option<Signature>, now: real, reply: ToolReply)
    returns (raised: Option<Signature>, result: ToolResult)
    requires registry.Valid() && now >= registry.clock
    modifies registry, audit
    ensures registry.Valid()
    ensures raised == match Tools.ExecuteTool(sensitive, call, approved) case NeedsDecision(s) => Some(s) case _ => None
    ensures raised.Some? ==> unchanged(registry) && (audit != null ==> unchanged(audit))
    ensures raised.None? && call.tool in sensitive ==> approved == Some(call)
    ensures raised.None? ==> registry.runs <= old(registry.runs) + [call.tool] && old(registry.runs) <= registry.runs
    ensures raised.None? && audit != null ==>
              audit.rows == old(audit.rows) + [AuditRow(call, specialist, result, call.tool in sensitive)]
  {
    var isSensitive := call.tool in sensitive;
    if isSensitive && approved != Some(call) {
      return Some(call), ToolResult("", None);
    }
    raised := None;
    result := registry.Execute(call.tool, specialist, now, reply);
    if audit != null {
      audit.rows := audit.rows + [AuditRow(call, specialist, result, isSensitive)];
    }
  }
}
