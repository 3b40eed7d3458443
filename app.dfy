/**
 * The session and worker lifecycle of app.py: login, verify, start, stop,
 * status and list over the three tables the handlers share.
 *
 * `tempSessions` and `users` are the two maps of the persisted document;
 * each handler's load_db / mutate / save_db round trip is one update of
 * these fields. `activeBots` is the in-memory registry of running workers.
 */
module App {
  import opened Records
  import opened Codes
  import opened Routes

  /** A registry entry agrees with the stored record of the same auth token. */
  predicate Mirrors(u: UserRecord, w: Worker) {
    u.active && u.groupId == Some(w.groupId) && u.emoji == w.emoji && u.phone == w.phone
  }

  function EntryOf(auth: string, w: Worker): BotEntry {
    BotEntry(auth, w.groupId, w.emoji, w.phone)
  }

  class Server {
    var tempSessions: map<string, Pending>
    var users: map<string, UserRecord>
    var activeBots: map<string, Worker>

    /** Every running worker has a stored record marked active, with the worker's group, emoji and phone. */
    ghost predicate RegistryBacked()
      reads this
    {
      forall a :: a in activeBots ==> a in users && Mirrors(users[a], activeBots[a])
    }

    /** Every record marked active has a running worker. */
    ghost predicate FlagsAccurate()
      reads this
    {
      forall a :: a in users && users[a].active ==> a in activeBots
    }

    /** The registry and the persisted `active` flags tell the same story. */
    ghost predicate Synced()
      reads this
    {
      RegistryBacked() && FlagsAccurate()
    }

    function Persisted(): Document
      reads this
    {
      Document(users, tempSessions)
    }

    /**
     * Process start: the document is what `load_db` yields and the registry
     * is empty. A stored record still marked active (from before a restart)
     * has no worker, so the flags are accurate exactly when none is.
     */
    constructor (stored: Option<Document>)
      ensures Persisted() == LoadDb(stored)
      ensures stored.None? ==> users == map[] && tempSessions == map[]
      ensures activeBots == map[]
      ensures RegistryBacked()
      ensures FlagsAccurate() <==> forall a :: a in users ==> !users[a].active
      ensures stored.None? ==> Synced()
    {
      var doc := LoadDb(stored);
      users := doc.users;
      tempSessions := doc.tempSessions;
      activeBots := map[];
    }

    /** `custom_login`. */
    method Login(apiId: Call<int>, apiHash: string, phone: string, authorized: Call<bool>,
                 codeRequest: Call<()>, picks: seq<nat>, now: real) returns (r: Response)
      requires ValidPicks(picks)
      modifies this`tempSessions
      ensures apiId.Raises? ==> r == Error(Raised(apiId.message))
      ensures apiId.Returns? && authorized.Raises? ==> r == Error(Raised(authorized.message))
      ensures apiId.Returns? && authorized == Returns(true) ==> r == Error(AlreadyLoggedIn)
      ensures apiId.Returns? && authorized == Returns(false) && codeRequest.Raises? ==>
                r == Error(Raised(codeRequest.message))
      ensures r.Error? ==> tempSessions == old(tempSessions)
      ensures apiId.Returns? && authorized == Returns(false) && codeRequest.Returns? ==>
                var code := GenerateCode(picks);
                && r == CodeSent(code, VerifyPath(code))
                && tempSessions == old(tempSessions)[code := Pending(phone, apiId.value, apiHash, now)]
      ensures old(Synced()) ==> Synced()
    {
      if apiId.Raises? {
        return Error(Raised(apiId.message));
      }
      if authorized.Raises? {
        return Error(Raised(authorized.message));
      }
      if !authorized.value {
        if codeRequest.Raises? {
          return Error(Raised(codeRequest.message));
        }
        var code := GenerateCode(picks);
        tempSessions := tempSessions[code := Pending(phone, apiId.value, apiHash, now)];
        return CodeSent(code, VerifyPath(code));
      }
      r := Error(AlreadyLoggedIn);
    }

    /**
     * `custom_verify`. `signIn` stands for creating the client, connecting,
     * `sign_in` with the one-time password and `get_me`; its value is `me.id`.
     */
    method Verify(code: string, signIn: Call<int>, authPicks: seq<nat>) returns (r: Response)
      requires ValidPicks(authPicks)
      modifies this`users, this`tempSessions
      ensures code !in old(tempSessions) ==> r == Error(InvalidCode) && unchanged(this)
      ensures code in old(tempSessions) && signIn.Raises? ==>
                r == Error(Raised(signIn.message)) && unchanged(this)
      ensures code in old(tempSessions) && signIn.Returns? ==>
                var auth := GenerateCode(authPicks);
                && r == Verified(auth, BotPath(auth))
                && users == old(users)[auth := UserRecord(signIn.value, old(tempSessions)[code].phone, false, None, DefaultEmoji)]
                && tempSessions == old(tempSessions) - {code}
      ensures old(FlagsAccurate()) ==> FlagsAccurate()
      ensures old(RegistryBacked()) && GenerateCode(authPicks) !in activeBots ==> RegistryBacked()
    {
      if code !in tempSessions {
        return Error(InvalidCode);
      }
      var session := tempSessions[code];
      if signIn.Raises? {
        return Error(Raised(signIn.message));
      }
      var auth := GenerateCode(authPicks);
      users := users[auth := UserRecord(signIn.value, session.phone, false, None, DefaultEmoji)];
      tempSessions := tempSessions - {code};
      r := Verified(auth, BotPath(auth));
    }

    /**
     * `custom_start`. A worker already registered for `auth` is disconnected
     * with its error swallowed, which changes none of the tables; `connect`
     * stands for creating and connecting the new client.
     */
    method Start(auth: string, groupId: Call<int>, emoji: string, connect: Call<()>) returns (r: Response)
      modifies this`users, this`activeBots
      ensures auth !in old(users) ==> r == Error(InvalidAuth) && unchanged(this)
      ensures auth in old(users) && groupId.Raises? ==>
                r == Error(Raised(groupId.message)) && unchanged(this)
      ensures auth in old(users) && groupId.Returns? && connect.Raises? ==>
                r == Error(Raised(connect.message)) && unchanged(this)
      ensures auth in old(users) && groupId.Returns? && connect.Returns? ==>
                var u := old(users)[auth];
                && r == Started
                && activeBots == old(activeBots)[auth := Worker(groupId.value, emoji, u.phone)]
                && users == old(users)[auth := u.(active := true, groupId := Some(groupId.value), emoji := emoji)]
      ensures old(RegistryBacked()) ==> RegistryBacked()
      ensures old(FlagsAccurate()) ==> FlagsAccurate()
    {
      if auth !in users {
        return Error(InvalidAuth);
      }
      var user := users[auth];
      if groupId.Raises? {
        return Error(Raised(groupId.message));
      }
      if connect.Raises? {
        return Error(Raised(connect.message));
      }
      var g := groupId.value;
      activeBots := activeBots[auth := Worker(g, emoji, user.phone)];
      users := users[auth := user.(active := true, groupId := Some(g), emoji := emoji)];
      r := Started;
    }

    /**
     * `stop_bot`. When `disconnect` raises, the registry removal on the next
     * line of the source is never reached, so nothing changes.
     */
    method Stop(auth: string, disconnect: Call<()>) returns (r: Response)
      modifies this`users, this`activeBots
      ensures auth !in old(activeBots) ==> r == Error(NotRunning) && unchanged(this)
      ensures auth in old(activeBots) && disconnect.Raises? ==>
                r == Error(Raised(disconnect.message)) && unchanged(this)
      ensures auth in old(activeBots) && disconnect.Returns? ==>
                && r == Stopped
                && activeBots == old(activeBots) - {auth}
                && users == if auth in old(users) then old(users)[auth := old(users)[auth].(active := false)] else old(users)
      ensures old(RegistryBacked()) ==> RegistryBacked()
      ensures old(FlagsAccurate()) ==> FlagsAccurate()
    {
      if auth !in activeBots {
        return Error(NotRunning);
      }
      if disconnect.Raises? {
        return Error(Raised(disconnect.message));
      }
      activeBots := activeBots - {auth};
      if auth in users {
        users := users[auth := users[auth].(active := false)];
      }
      r := Stopped;
    }

    /**
     * `status`. `active` is registry membership, not the stored flag; the
     * two agree whenever the tables are in sync, and a running worker's
     * group and emoji are the ones reported.
     */
    function Status(auth: string): (r: Response)
      reads this
      ensures r.Error? <==> auth !in users
      ensures r.Error? ==> r.fault == InvalidAuth
      ensures r.StatusReport? || r.Error?
      ensures r.StatusReport? ==>
                && (r.active <==> auth in activeBots)
                && r.groupId == users[auth].groupId
                && r.emoji == users[auth].emoji
                && r.phone == users[auth].phone
      ensures r.StatusReport? && Synced() ==> r.active == users[auth].active
      ensures r.StatusReport? && r.active && RegistryBacked() ==>
                r.groupId == Some(activeBots[auth].groupId) && r.emoji == activeBots[auth].emoji
    {
      if auth !in users then Error(InvalidAuth)
      else
        var u := users[auth];
        StatusReport(auth in activeBots, u.groupId, u.emoji, u.phone)
    }

    /**
     * `list_bots`: one entry per registry item, each auth once, and `total`
     * is the number of entries. The registry is walked in an arbitrary order.
     */
    method List() returns (r: Response)
      ensures r.Listing?
      ensures r.total == |r.bots| == |activeBots|
      ensures forall i :: 0 <= i < |r.bots| ==>
                r.bots[i].auth in activeBots && r.bots[i] == EntryOf(r.bots[i].auth, activeBots[r.bots[i].auth])
      ensures forall a :: a in activeBots ==> exists i :: 0 <= i < |r.bots| && r.bots[i].auth == a
      ensures forall i, j :: 0 <= i < j < |r.bots| ==> r.bots[i].auth != r.bots[j].auth
    {
      var bots: seq<BotEntry> := [];
      var remaining := activeBots.Keys;
      while remaining != {}
        invariant remaining <= activeBots.Keys
        invariant |bots| + |remaining| == |activeBots|
        invariant forall i :: 0 <= i < |bots| ==>
                    bots[i].auth in activeBots && bots[i].auth !in remaining &&
                    bots[i] == EntryOf(bots[i].auth, activeBots[bots[i].auth])
        invariant forall a :: a in activeBots && a !in remaining ==> exists i :: 0 <= i < |bots| && bots[i].auth == a
        invariant forall i, j :: 0 <= i < j < |bots| ==> bots[i].auth != bots[j].auth
        decreases |remaining|
      {
        var a :| a in remaining;
        ghost var before := bots;
        bots := bots + [EntryOf(a, activeBots[a])];
        remaining := remaining - {a};
        assert bots[|before|].auth == a;
        assert forall i :: 0 <= i < |before| ==> bots[i] == before[i];
      }
      r := Listing(|bots|, bots);
    }
  }
}
