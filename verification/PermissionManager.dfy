/** The Telegram permission manager in the form its source has; `live` stands for the timers of the event loop. */
module PermissionManagers {
  import opened Wrappers
  import opened PermissionRequests

  class TelegramPermissionManager {
    var pending: map<int, Request>
    var timers: map<int, nat>
    var lastResolved: map<int, int>
    var live: map<nat, Callback>
    var next: nat
    ghost var log: Log

    ghost function Abs(): State
      reads this
    {
      State(pending, timers, lastResolved, live, next, log)
    }

    /** What `PermissionRequests` proves of every run. */
    ghost predicate Valid()
      reads this
    {
      Inv(Abs())
    }

    constructor ()
      ensures Valid()
      ensures Abs() == Initial()
    {
      pending, timers, lastResolved, live, next, log := map[], map[], map[], map[], 0, Start;
      new;
      RunKeepsInv([]);
    }

    /** Registers a prompt; the id handed to `onExpire` is that of the superseded request, if any. */
    method Register(chatId: int, toolUseId: string, toolName: string, messageId: Option<int>, now: int)
      returns (superseded: Option<string>)
      requires Valid()
      modifies this
      ensures Valid()
      ensures Abs() == DoRegister(old(Abs()), chatId, toolUseId, toolName, messageId, now)
      ensures superseded == if chatId in old(pending) then Some(old(pending)[chatId].toolUseId) else None
    {
      StepKeepsInv(Abs(), Event.Register(chatId, toolUseId, toolName, messageId, now));
      superseded := GiveWay(chatId, now);
      var request := Request(next, toolUseId, toolName, messageId);
      pending := pending[chatId := request];
      live := live[next := Callback(chatId, request)];
      timers := timers[chatId := next];
      next := next + 1;
    }

    /** The first part of `register`: the old timer is cleared and the old id handed on. */
    method GiveWay(chatId: int, now: int) returns (superseded: Option<string>)
      modifies this`timers, this`live, this`lastResolved, this`log
      ensures Abs() == Supersede(old(Abs()), chatId, now)
      ensures superseded == if chatId in pending then Some(pending[chatId].toolUseId) else None
    {
      superseded := None;
      if chatId in pending {
        var existing := pending[chatId];
        if chatId in timers {
          live := live - {timers[chatId]};
          timers := timers - {chatId};
        }
        lastResolved := lastResolved[chatId := now];
        superseded := Some(existing.toolUseId);
        log := Then(log, Left(existing.number, chatId, existing.toolUseId, Superseded, now));
      }
    }

    method Get(chatId: int) returns (request: Option<Request>)
      ensures request == if chatId in pending then Some(pending[chatId]) else None
    {
      request := if chatId in pending then Some(pending[chatId]) else None;
    }

    method Resolve(chatId: int, now: int) returns (request: Option<Request>)
      requires Valid()
      modifies this
      ensures Valid()
      ensures Abs() == DoResolve(old(Abs()), chatId, now)
      ensures request == if chatId in old(pending) then Some(old(pending)[chatId]) else None
    {
      StepKeepsInv(Abs(), Event.Resolve(chatId, now));
      request := Get(chatId);
      if request.Some? {
        pending := pending - {chatId};
        lastResolved := lastResolved[chatId := now];
        if chatId in timers {
          live := live - {timers[chatId]};
          timers := timers - {chatId};
        }
        log := Then(log, Left(request.value.number, chatId, request.value.toolUseId, Resolved, now));
      }
    }

    /** The callback of a timer; it deletes by chat, whatever is pending there. */
    method OnTimer(t: nat, now: int) returns (expired: string)
      requires t in live
      requires Valid()
      modifies this
      ensures Valid()
      ensures Abs() == DoFire(old(Abs()), t, now)
      ensures expired == old(live)[t].request.toolUseId
    {
      StepKeepsInv(Abs(), TimerFires(t, now));
      var Callback(chatId, request) := live[t];
      live := live - {t};
      pending := pending - {chatId};
      timers := timers - {chatId};
      lastResolved := lastResolved[chatId := now];
      expired := request.toolUseId;
      log := Then(log, Left(request.number, chatId, request.toolUseId, TimedOut, now));
    }

    method IsRecentlyResolved(chatId: int, graceMs: int, now: int) returns (recent: bool)
      ensures recent <==> chatId in lastResolved && now - lastResolved[chatId] < graceMs
    {
      recent := chatId in lastResolved && now - lastResolved[chatId] < graceMs;
    }

    method Cleanup()
      requires Valid()
      modifies this
      ensures Valid()
      ensures Abs() == DoCleanup(old(Abs()))
    {
      StepKeepsInv(Abs(), Event.Cleanup);
      live := live - Handles(timers);
      log := Then(log, Wiped(Numbers(pending)));
      timers := map[];
      pending := map[];
      lastResolved := map[];
    }
  }
}
