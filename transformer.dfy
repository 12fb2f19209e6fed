/**
 * Transformer.doTransform and Transformer.apply as the loops they are:
 * while the transform has not quit and the reader has another event, move
 * to it and dispatch it.  Each method is proved to compute what the
 * dispatch functions of module Dispatch compute, so every property proved
 * of Transform, Loop and ApplyNodes holds of these methods as well.
 */
module Transformers {
  import opened Wrappers
  import opened Nodes
  import opened Events
  import opened SimpleWriters
  import opened Readers
  import opened Dispatch
  import ApplyReaders

  /** while (!quit && xmlReader.hasNext()) { xmlReader.next(); handle the event } */
  method RunLoop(cfg: Config, e: Engine, fuel: nat) returns (r: Result<Engine>)
    requires Sound(e)
    ensures r == Loop(cfg, e, fuel)
  {
    ghost var target := Loop(cfg, e, fuel);
    var current := e;
    var f := fuel;
    while !current.quit && HasNext(current.reader)
      invariant Sound(current)
      invariant Loop(cfg, current, f) == target
      decreases f
    {
      var handled := Turn(cfg, current, f, target);
      if handled.Failure? {
        return Failure(handled.error);
      }
      current := handled.value;
      f := f - 1;
    }
    return Success(current);
  }

  /**
   * One turn of the loop once the reader has another event: xmlReader.next(),
   * then handle the event; no fuel left is OutOfFuel.  The loop from the
   * engine after the turn ends where the loop from e ends.
   */
  method Turn(cfg: Config, e: Engine, f: nat, ghost target: Result<Engine>) returns (r: Result<Engine>)
    requires Sound(e) && !e.quit && HasNext(e.reader) && Loop(cfg, e, f) == target
    ensures r.Failure? ==> target == Failure(r.error)
    ensures r.Success? ==> f > 0 && Steps(e, r.value) && Loop(cfg, r.value, f - 1) == target
  {
    if f == 0 {
      return Failure(OutOfFuel);
    }
    var next := Next(e.reader);
    if next.Failure? {
      return Failure(next.error);
    }
    r := HandleEvent(cfg, e.(reader := next.value), f - 1);
  }

  /**
   * doTransform: the start-document handlers run, quit is reset, and the
   * loop reads the document.
   */
  method DoTransform(cfg: Config, events: seq<Event>, writer: WriterState, fuel: nat) returns (r: Result<Engine>)
    ensures r == Dispatch.Transform(cfg, events, writer, fuel)
  {
    var e0 := Start(cfg, events, writer);
    var started := HandleStartDocument(cfg, e0, fuel);
    if started.Failure? {
      return Failure(started.error);
    }
    r := RunLoop(cfg, started.value.(quit := false), fuel);
  }

  /**
   * apply(nodes): a replay reader over the nodes, the applying level one
   * deeper and the current reader saved; the same loop; then the level and
   * the reader are restored.
   */
  method Apply(cfg: Config, e: Engine, nodes: seq<Node>, fuel: nat) returns (r: Result<Engine>)
    requires Sound(e)
    ensures r == ApplyNodes(cfg, e, nodes, fuel)
  {
    var replay := ApplyReaders.Open(nodes);
    if replay.Failure? {
      return Failure(replay.error);
    }
    var cursor := replay.value;
    var inner := RunLoop(cfg, Entered(e, cursor), fuel);
    if inner.Failure? {
      return Failure(inner.error);
    }
    var e2 := inner.value;
    var saved := e2.readerStack;
    assert saved == e.readerStack + [e.reader] && e2.applyingLevel == e.applyingLevel + 1;
    var restored := e2.(applyingLevel := e2.applyingLevel - 1, reader := saved[|saved| - 1], readerStack := saved[..|saved| - 1]);
    assert restored == e2.(applyingLevel := e.applyingLevel, reader := e.reader, readerStack := e.readerStack);
    r := Success(restored);
  }
}
