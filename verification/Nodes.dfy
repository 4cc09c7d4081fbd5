/**
  The local part of a composite condition: what the goroutines of and.go and or.go do with one message
  of their `merged` channel, and after an emission.
 */
module Nodes {
  import opened Conditions
  import opened Sequences
  import opened SourceIds

  /** `matched`, `closedChild`, `matchedSources` and `remainingOpen` of and.go; `remaining` of or.go. */
  datatype Work =
    | LeafWork
    | AndWork(matched: seq<bool>, closed: seq<bool>, sources: seq<seq<string>>, open: int)
    | OrWork(open: int)

  /** `Again` goes back to the loop head, `Return` leaves the loop, `Emit` calls `emitEvent`. */
  datatype Action = Again | Return | Emit(event: Event)

  function Unset(n: nat): seq<bool> {
    seq(n, _ => false)
  }

  function NoSources(n: nat): seq<seq<string>> {
    seq(n, _ => [])
  }

  function InitialWork(c: Condition): (w: Work)
    ensures Fits(c, w)
  {
    var n := |c.Children()|;
    match c
    case Leaf(_) => LeafWork
    case And(_, _) => AndWork(Unset(n), Unset(n), NoSources(n), n)
    case Or(_, _) => OrWork(n)
  }

  predicate Fits(c: Condition, w: Work) {
    match c
    case Leaf(_) => w.LeafWork?
    case And(_, children) => w.AndWork? && |w.matched| == |w.closed| == |w.sources| == |children|
    case Or(_, _) => w.OrWork?
  }

  predicate AllMatched(matched: seq<bool>) {
    forall k :: 0 <= k < |matched| ==> matched[k]
  }

  predicate AnyClosed(closed: seq<bool>) {
    exists k :: 0 <= k < |closed| && closed[k]
  }

  /** The loop guard, tested after a message that neither returned nor emitted. */
  function Guarded(open: int): Action {
    if open > 0 then Again else Return
  }

  function OnAnd(id: string, w: Work, k: nat, m: Message): (r: (Work, Action))
    requires w.AndWork? && |w.matched| == |w.closed| == |w.sources| && k < |w.matched|
    ensures r.0.AndWork? && |r.0.matched| == |r.0.closed| == |r.0.sources| == |w.matched|
  {
    match m
    case Closed =>
      if w.closed[k] then (w, Guarded(w.open))
      else
        var open := w.open - 1;
        var w' := w.(closed := w.closed[k := true], open := open);
        if !w.matched[k] then (w', Return) else (w', Guarded(open))
    case Fired(event) =>
      if w.matched[k] then (w, Guarded(w.open))
      else
        var w' := w.(matched := w.matched[k := true], sources := w.sources[k := EventSources(event)]);
        if AllMatched(w'.matched) then (w', Emit(Event(id, Merge(w'.sources))))
        else (w', Guarded(w.open))
  }

  function OnOr(id: string, w: Work, m: Message): (Work, Action)
    requires w.OrWork?
  {
    match m
    case Closed =>
      var open := w.open - 1;
      (OrWork(open), Guarded(open))
    case Fired(event) => (w, Emit(Event(id, EventSources(event))))
  }

  function OnMessage(c: Condition, w: Work, k: nat, m: Message): (r: (Work, Action))
    requires !c.Leaf? && Fits(c, w) && k < |c.children|
    ensures Fits(c, r.0)
  {
    if c.And? then OnAnd(c.id, w, k, m) else OnOr(c.id, w, m)
  }

  /** After a successful `emitEvent`: the work of the next cycle, and whether the loop goes on. */
  function AfterEmit(c: Condition, mode: Mode, w: Work): (r: (Work, bool))
    requires !c.Leaf? && Fits(c, w)
    ensures Fits(c, r.0)
  {
    if c.children == [] || mode == Once then (w, false)
    else if c.Or? then (w, w.open > 0)
    else
      var n := |c.children|;
      var w' := w.(matched := Unset(n), sources := NoSources(n));
      (w', !AnyClosed(w.closed) && w.open > 0)
  }
}
