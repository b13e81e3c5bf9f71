/** The per-game timer registry, GameProcessor._timers in
    app/FSM/game/processors.py.  A task is what `set_timer` captured: the chat
    and game rows as they were when it was set, and its timeout.  Cancelling a
    task is recorded in `cancelled`; a cancelled task never fires. */
module GameTimers {
  import opened Models

  datatype TimerTask = TimerTask(chat: TgChat, game: Game, timeout: int)

  /** The timeout `set_timer` uses when the caller gives none. */
  const DefaultTimeout := 20

  class TimerRegistry {
    var tasks: map<int, TimerTask>
    var cancelled: seq<TimerTask>

    /** Each entry is the timer task of the game it is keyed by. */
    ghost predicate Valid()
      reads this
    {
      forall id :: id in tasks ==> tasks[id].game.id == id
    }

    constructor()
      ensures Valid() && tasks == map[] && cancelled == []
    {
      tasks, cancelled := map[], [];
    }

    /** set_timer: a task already registered for the game is cancelled, and the
        new task takes its place, so a game has at most one task. */
    method SetTimer(chat: TgChat, game: Game, timeout: int := DefaultTimeout)
      requires Valid()
      modifies this
      ensures Valid()
      ensures tasks == old(tasks)[game.id := TimerTask(chat, game, timeout)]
      ensures game.id in old(tasks) ==> cancelled == old(cancelled) + [old(tasks)[game.id]]
      ensures game.id !in old(tasks) ==> cancelled == old(cancelled)
    {
      if game.id in tasks {
        cancelled := cancelled + [tasks[game.id]];
      }
      tasks := tasks[game.id := TimerTask(chat, game, timeout)];
    }

    /** cancel_timer: a registered task is cancelled and its entry removed;
        for an unregistered game nothing changes. */
    method CancelTimer(gameId: int)
      requires Valid()
      modifies this
      ensures Valid()
      ensures gameId in old(tasks) ==> tasks == old(tasks) - {gameId} && cancelled == old(cancelled) + [old(tasks)[gameId]]
      ensures gameId !in old(tasks) ==> tasks == old(tasks) && cancelled == old(cancelled)
    {
      if gameId in tasks {
        cancelled := cancelled + [tasks[gameId]];
        tasks := tasks - {gameId};
      }
    }

    /** The `finally` of a task that ran: its entry is dropped, if any. */
    method Discard(gameId: int)
      requires Valid()
      modifies this`tasks
      ensures Valid()
      ensures tasks == old(tasks) - {gameId}
    {
      tasks := tasks - {gameId};
    }
  }
}
