/**
 * Request sequences against a fresh server, proved from the handlers'
 * contracts alone. The random draws and the account id the platform reports
 * stay parameters, so each scenario holds for every outcome of them.
 */
module Scenarios {
  import opened Records
  import opened Codes
  import opened Routes
  import opened App

  /**
   * login -> verify -> start -> status -> stop -> status -> list, with every
   * platform call succeeding: the worker is reported running with the
   * requested group and emoji, then stopped, and the list is empty again.
   */
  method Lifecycle(codePicks: seq<nat>, authPicks: seq<nat>, meId: int, now: real)
    returns (login: Response, verify: Response, start: Response, running: Response,
             stop: Response, stopped: Response, listing: Response)
    requires ValidPicks(codePicks) && ValidPicks(authPicks)
    ensures login.CodeSent? && IsCode(login.code) && login.next == VerifyPath(login.code)
    ensures verify.Verified? && IsCode(verify.auth) && verify.next == BotPath(verify.auth)
    ensures start == Started
    ensures running == StatusReport(true, Some(-100123), Fire, "+10000000000")
    ensures stop == Stopped
    ensures stopped == StatusReport(false, Some(-100123), Fire, "+10000000000")
    ensures listing == Listing(0, [])
  {
    var s := new Server(None);
    login := s.Login(Returns(12345), "hash", "+10000000000", Returns(false), Returns(()), codePicks, now);
    verify := s.Verify(login.code, Returns(meId), authPicks);
    start := s.Start(verify.auth, Returns(-100123), Fire, Returns(()));
    running := s.Status(verify.auth);
    stop := s.Stop(verify.auth, Returns(()));
    stopped := s.Status(verify.auth);
    listing := s.List();
  }

  /**
   * Two starts for the same token leave exactly one worker, configured by
   * the second call, and the stored record shows the second call's values.
   */
  method StartTwice(codePicks: seq<nat>, authPicks: seq<nat>, meId: int, now: real, phone: string,
                    g1: int, e1: string, g2: int, e2: string)
    returns (auth: string, listing: Response, status: Response)
    requires ValidPicks(codePicks) && ValidPicks(authPicks)
    ensures listing == Listing(1, [BotEntry(auth, g2, e2, phone)])
    ensures status == StatusReport(true, Some(g2), e2, phone)
  {
    var s := new Server(None);
    var login := s.Login(Returns(1), "hash", phone, Returns(false), Returns(()), codePicks, now);
    var verify := s.Verify(login.code, Returns(meId), authPicks);
    auth := verify.auth;
    assert auth in s.users && s.users[auth].phone == phone && s.activeBots == map[];
    var first := s.Start(auth, Returns(g1), e1, Returns(()));
    assert s.activeBots == map[auth := Worker(g1, e1, phone)] && s.users[auth].phone == phone;
    var second := s.Start(auth, Returns(g2), e2, Returns(()));
    assert s.activeBots == map[auth := Worker(g2, e2, phone)];
    listing := s.List();
    status := s.Status(auth);
  }

  /**
   * A failed sign-in keeps the pending login, so the same code verifies on
   * the next try; after that the code is consumed.
   */
  method RetryVerify(codePicks: seq<nat>, authPicks: seq<nat>, meId: int, now: real, failure: string)
    returns (failed: Response, retried: Response, reused: Response)
    requires ValidPicks(codePicks) && ValidPicks(authPicks)
    ensures failed == Error(Raised(failure))
    ensures retried.Verified? && IsCode(retried.auth)
    ensures reused == Error(InvalidCode) && Message(reused.fault) == "Invalid code"
  {
    var s := new Server(None);
    var login := s.Login(Returns(1), "hash", "+1", Returns(false), Returns(()), codePicks, now);
    failed := s.Verify(login.code, Raises(failure), authPicks);
    retried := s.Verify(login.code, Returns(meId), authPicks);
    reused := s.Verify(login.code, Returns(meId), authPicks);
  }

  /**
   * After a restart the registry is empty while the stored record may still
   * say active: status reports the worker as not running and stop refuses,
   * although the stored flag is unchanged.
   */
  method AfterRestart(doc: Document, auth: string)
    returns (status: Response, stop: Response, stillFlagged: bool)
    requires auth in doc.users && doc.users[auth].active
    ensures status == StatusReport(false, doc.users[auth].groupId, doc.users[auth].emoji, doc.users[auth].phone)
    ensures stop == Error(NotRunning) && Message(stop.fault) == "Bot not running"
    ensures stillFlagged
  {
    var s := new Server(Some(doc));
    status := s.Status(auth);
    stop := s.Stop(auth, Returns(()));
    stillFlagged := s.users[auth].active;
  }

  /**
   * The guards on a fresh server: an already authorized client, and a token
   * that no verify has handed out, each give their fixed error text and
   * leave every table empty.
   */
  method Refusals(picks: seq<nat>, now: real, phone: string, auth: string, emoji: string)
    returns (login: Response, start: Response, status: Response, stop: Response, listing: Response)
    requires ValidPicks(picks)
    ensures login == Error(AlreadyLoggedIn) && Message(login.fault) == "Already logged in"
    ensures start == Error(InvalidAuth) && Message(start.fault) == "Invalid auth"
    ensures status == Error(InvalidAuth) && Message(status.fault) == "Invalid auth"
    ensures stop == Error(NotRunning) && Message(stop.fault) == "Bot not running"
    ensures listing == Listing(0, [])
  {
    var s := new Server(None);
    login := s.Login(Returns(1), "hash", phone, Returns(true), Returns(()), picks, now);
    start := s.Start(auth, Returns(-1), emoji, Returns(()));
    status := s.Status(auth);
    stop := s.Stop(auth, Returns(()));
    listing := s.List();
  }
}
