/**
 * The fixed-window rate limiter of the web server: per client IP, a window
 * of 60 seconds admits 100 requests. Time is an integer number of
 * milliseconds supplied by the caller.
 */
module RateLimiter {
  /** `RateLimitConfig` as the middleware sets it up. */
  const WindowMs := 60000
  const MaxRequests := 100

  /** `clientInfo`: requests counted in the current window, and when it ends. */
  datatype ClientInfo = ClientInfo(count: nat, resetAt: int)

  /**
   * One request from `ip` at `now`: the new table and whether the request
   * goes on. The first request of an IP, or one strictly after the end of
   * its window, opens a new window; any other request is counted, and is
   * refused once the count passes the maximum.
   */
  function Step(clients: map<string, ClientInfo>, ip: string, now: int): (r: (map<string, ClientInfo>, bool))
    ensures ip in r.0 && r.0[ip].count >= 1 && r.0[ip].resetAt >= now
    ensures r.1 <==> r.0[ip].count <= MaxRequests
    ensures r.0.Keys == clients.Keys + {ip}
    ensures forall other :: other in clients && other != ip ==> r.0[other] == clients[other]
  {
    if ip !in clients || now > clients[ip].resetAt then
      (clients[ip := ClientInfo(1, now + WindowMs)], true)
    else
      var info := clients[ip];
      var count := info.count + 1;
      (clients[ip := ClientInfo(count, info.resetAt)], count <= MaxRequests)
  }

  /** A series of requests from one IP: the final table and, in order, whether each went on. */
  function Run(clients: map<string, ClientInfo>, ip: string, times: seq<int>): (r: (map<string, ClientInfo>, seq<bool>))
    ensures |r.1| == |times|
  {
    if times == [] then (clients, [])
    else
      var n := |times| - 1;
      var (before, answers) := Run(clients, ip, times[..n]);
      var (after, allowed) := Step(before, ip, times[n]);
      (after, answers + [allowed])
  }

  /**
   * A window opened by the first of a series of requests, all of which fall
   * inside it, lets exactly the first 100 through and refuses every later
   * one, which is still counted.
   */
  lemma {:induction false} WindowAdmitsFirstHundred(clients: map<string, ClientInfo>, ip: string, times: seq<int>)
    requires times != []
    requires ip !in clients || times[0] > clients[ip].resetAt
    requires forall i :: 0 <= i < |times| ==> times[i] <= times[0] + WindowMs
    ensures Run(clients, ip, times).0 == clients[ip := ClientInfo(|times|, times[0] + WindowMs)]
    ensures forall j :: 0 <= j < |times| ==> (Run(clients, ip, times).1[j] <==> j < MaxRequests)
  {
    var n := |times| - 1;
    if n == 0 {
      assert times[..0] == [];
    } else {
      var prefix := times[..n];
      assert prefix[0] == times[0];
      WindowAdmitsFirstHundred(clients, ip, prefix);
      var (before, answers) := Run(clients, ip, prefix);
      assert before[ip] == ClientInfo(n, times[0] + WindowMs);
      assert times[n] <= before[ip].resetAt;
      forall j | 0 <= j < |times|
        ensures Run(clients, ip, times).1[j] <==> j < MaxRequests
      {
        if j < n {
          assert Run(clients, ip, times).1[j] == answers[j];
        }
      }
    }
  }

  /** The first request after a window has ended goes on and starts counting again from one. */
  lemma WindowReopens(clients: map<string, ClientInfo>, ip: string, now: int)
    requires ip in clients && now > clients[ip].resetAt
    ensures Step(clients, ip, now).1
    ensures Step(clients, ip, now).0[ip] == ClientInfo(1, now + WindowMs)
  {
  }

  /** Requests from other IPs never change whether a request from `ip` goes on. */
  lemma OtherIpsIndependent(clients: map<string, ClientInfo>, ip: string, other: string, t: int, now: int)
    requires other != ip
    ensures Step(Step(clients, other, t).0, ip, now).1 == Step(clients, ip, now).1
    ensures Step(Step(clients, other, t).0, ip, now).0[ip] == Step(clients, ip, now).0[ip]
  {
  }

  /** The middleware's state: the table shared by every request. */
  class Limiter {
    var clients: map<string, ClientInfo>

    /** `rateLimitMiddleware`: an empty table. */
    constructor()
      ensures clients == map[]
    {
      clients := map[];
    }

    /** The handler: records the request and answers whether it may go on (false is the 429 reply). */
    method Handle(ip: string, now: int) returns (allowed: bool)
      modifies this
      ensures ip !in old(clients) || now > old(clients)[ip].resetAt ==>
        clients == old(clients)[ip := ClientInfo(1, now + WindowMs)] && allowed
      ensures ip in old(clients) && now <= old(clients)[ip].resetAt ==>
        clients == old(clients)[ip := old(clients)[ip].(count := old(clients)[ip].count + 1)]
        && (allowed <==> old(clients)[ip].count + 1 <= MaxRequests)
      ensures (clients, allowed) == Step(old(clients), ip, now)
    {
      if ip !in clients || now > clients[ip].resetAt {
        clients := clients[ip := ClientInfo(1, now + WindowMs)];
        return true;
      }
      var info := clients[ip];
      var count := info.count + 1;
      clients := clients[ip := ClientInfo(count, info.resetAt)];
      allowed := count <= MaxRequests;
    }
  }
}
