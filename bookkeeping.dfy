/** The two process-wide tables orchestrator.py keeps and bot.py reads
    (orchestrator.py:36-43): the ids of the sessions being orchestrated, and
    for each session waiting for the user's answer a one-slot queue that the
    bot's handlers fill. They live in their own module so that both the bot
    and the orchestrator can use them. */
module Bookkeeping {
  import opened Common
  import opened Store

  /** `ACTIVE_SESSIONS` and `USER_INPUT_QUEUES`. A queue of capacity one is
      None while empty and Some(v) while it holds v. */
  class Registry {
    var active: set<SessionId>
    var queues: map<SessionId, Option<string>>

    /** Only a session being orchestrated waits for an answer. */
    ghost predicate Valid()
      reads this
    {
      queues.Keys <= active
    }

    constructor ()
      ensures Valid() && active == {} && queues == map[]
    {
      active, queues := {}, map[];
    }

    /** `ACTIVE_SESSIONS.add(sid)`. */
    method Activate(sid: SessionId)
      modifies this`active
      ensures active == old(active) + {sid}
    {
      active := active + {sid};
    }

    /** `ACTIVE_SESSIONS.remove(sid)`. */
    method Deactivate(sid: SessionId)
      modifies this`active
      ensures active == old(active) - {sid}
    {
      active := active - {sid};
    }

    /** `USER_INPUT_QUEUES[sid] = asyncio.Queue(maxsize=1)`: a fresh, empty
        queue replaces any earlier one. */
    method OpenQueue(sid: SessionId)
      modifies this`queues
      ensures queues == old(queues)[sid := None]
    {
      queues := queues[sid := None];
    }

    /** `USER_INPUT_QUEUES[sid].put(v)`: an empty queue takes the value; a full
        one keeps what it holds. */
    method Put(sid: SessionId, v: string)
      requires sid in queues
      modifies this`queues
      ensures queues == if old(queues[sid]).None? then old(queues)[sid := Some(v)] else old(queues)
    {
      if queues[sid].None? {
        queues := queues[sid := Some(v)];
      }
    }

    /** `queue.get()` under a timeout: the value held, emptying the queue, or
        None (the wait timed out) when nothing was put. */
    method Take(sid: SessionId) returns (v: Option<string>)
      requires sid in queues
      modifies this`queues
      ensures v == old(queues[sid])
      ensures queues == old(queues)[sid := None]
    {
      v := queues[sid];
      queues := queues[sid := None];
    }

    /** `USER_INPUT_QUEUES.pop(sid, None)`. */
    method CloseQueue(sid: SessionId)
      modifies this`queues
      ensures queues == old(queues) - {sid}
    {
      queues := queues - {sid};
    }
  }
}
