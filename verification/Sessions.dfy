/** Which account's session an account trades on (`brokers/sessions.py`). */
module Sessions {
  import opened Wrappers

  type Id = string

  const MAX_CREDENTIAL_HOPS := 4

  datatype Account = Account(
    id: Id, broker: string, clientId: string, enabled: bool, apiKey: Option<string>,
    staticIp: Option<string>, websocketEnabled: bool, usesCredentialsOf: Option<Id>)

  datatype Session = Session(accessToken: string, createdAt: int)

  datatype Credentials = Credentials(
    tradingClient: Id, broker: string, clientId: string, apiKey: string, accessToken: string,
    staticIp: Option<string>, authenticatedAs: Option<Id>)
  {
    predicate IsBorrowed() {
      authenticatedAs.Some? && authenticatedAs.value != tradingClient
    }
  }

  datatype SessionError =
    | NotConfigured(id: Id) | Disabled(id: Id) | Loop(path: seq<Id>) | TooFar(id: Id, hops: nat)
    | NoSession(id: Id, holder: Id) | Expired(id: Id) | NoApiKey(holder: Id)

  /** The tables are read into a dictionary keyed by each account's own id. */
  type Accounts = m: map<Id, Account> | forall k :: k in m ==> m[k].id == k witness map[]

  // ---------------------------------------------------------------- the chain

  /** The account `n` borrowings away: a reading of the configuration alone. */
  function IdAt(accounts: Accounts, id: Id, n: nat): Option<Id> {
    if n == 0 then Some(id)
    else
      var before := IdAt(accounts, id, n - 1);
      if before.Some? && before.value in accounts then accounts[before.value].usesCredentialsOf
      else None
  }

  ghost predicate LogsIn(accounts: Accounts, id: Id) {
    id in accounts && accounts[id].usesCredentialsOf.None?
  }

  /** The chain comes back to an account it has passed, within `n` borrowings. */
  ghost predicate Revisits(accounts: Accounts, id: Id, n: nat) {
    exists i: nat, j: nat :: i < j <= n && IdAt(accounts, id, i).Some? && IdAt(accounts, id, i) == IdAt(accounts, id, j)
  }

  ghost predicate HolderWithin(accounts: Accounts, id: Id, n: nat, holder: Id) {
    LogsIn(accounts, holder) && exists i: nat :: i <= n && IdAt(accounts, id, i) == Some(holder)
  }

  ghost predicate MissingWithin(accounts: Accounts, id: Id, n: nat, missing: Id) {
    missing !in accounts && exists i: nat :: i <= n && IdAt(accounts, id, i) == Some(missing)
  }

  // ----------------------------------------------------------------- the walk

  /** The walk from the account last seen. */
  function Walk(accounts: Accounts, seen: seq<Id>): Result<Account, SessionError>
    requires 1 <= |seen| <= MAX_CREDENTIAL_HOPS + 1 && seen[|seen| - 1] in accounts
    decreases MAX_CREDENTIAL_HOPS + 1 - |seen|
  {
    var current := accounts[seen[|seen| - 1]];
    match current.usesCredentialsOf
    case None => Success(current)
    case Some(next) =>
      if next in seen then Failure(Loop(seen + [next]))
      else if |seen| > MAX_CREDENTIAL_HOPS then Failure(TooFar(seen[0], |seen|))
      else if next !in accounts then Failure(NotConfigured(next))
      else Walk(accounts, seen + [next])
  }

  /** `seen` is the chain so far, every account of it configured and none of it repeated. */
  ghost predicate ChainSoFar(accounts: Accounts, seen: seq<Id>) {
    && 1 <= |seen| <= MAX_CREDENTIAL_HOPS + 1
    && (forall i :: 0 <= i < |seen| ==> seen[i] in accounts && IdAt(accounts, seen[0], i) == Some(seen[i]))
    && (forall i, j :: 0 <= i < j < |seen| ==> seen[i] != seen[j])
  }

  lemma {:induction false} EndsForGood(accounts: Accounts, id: Id, from: nat, n: nat)
    requires IdAt(accounts, id, from).None? && from <= n
    ensures IdAt(accounts, id, n).None?
  {
    if from < n {
      EndsForGood(accounts, id, from, n - 1);
    }
  }

  /** A chain that closes on itself never leaves the accounts it has passed. */
  lemma {:induction false} StaysInLoop(accounts: Accounts, seen: seq<Id>, n: nat)
    requires ChainSoFar(accounts, seen)
    requires IdAt(accounts, seen[0], |seen|).Some? && IdAt(accounts, seen[0], |seen|).value in seen
    ensures IdAt(accounts, seen[0], n).Some? && IdAt(accounts, seen[0], n).value in seen
    ensures !LogsIn(accounts, IdAt(accounts, seen[0], n).value)
  {
    if n > 0 {
      StaysInLoop(accounts, seen, n - 1);
      var before := IdAt(accounts, seen[0], n - 1).value;
      var i :| 0 <= i < |seen| && seen[i] == before;
      assert IdAt(accounts, seen[0], i + 1) == IdAt(accounts, seen[0], n);
    }
    var at := IdAt(accounts, seen[0], n).value;
    var i :| 0 <= i < |seen| && seen[i] == at;
    assert IdAt(accounts, seen[0], i + 1) == accounts[at].usesCredentialsOf;
  }

  /** What each outcome of the walk says about the chain, and nothing else. */
  ghost predicate Classified(accounts: Accounts, id: Id, r: Result<Account, SessionError>) {
    && (forall h :: (r.Success? && r.value.id == h) <==> HolderWithin(accounts, id, MAX_CREDENTIAL_HOPS, h))
    && ((r.Failure? && r.error.Loop?) <==> Revisits(accounts, id, MAX_CREDENTIAL_HOPS + 1))
    && (forall x :: r == Failure(NotConfigured(x)) <==> MissingWithin(accounts, id, MAX_CREDENTIAL_HOPS, x))
    && ((r.Failure? && r.error.TooFar?) <==>
          IdAt(accounts, id, MAX_CREDENTIAL_HOPS + 1).Some? && !Revisits(accounts, id, MAX_CREDENTIAL_HOPS + 1))
    && (r.Success? ==> r.value.id in accounts && accounts[r.value.id] == r.value)
    && (r.Failure? ==> r.error.Loop? || r.error.NotConfigured? || r.error.TooFar?)
  }

  lemma {:induction false} WalkClassified(accounts: Accounts, seen: seq<Id>)
    requires ChainSoFar(accounts, seen)
    ensures Classified(accounts, seen[0], Walk(accounts, seen))
    decreases MAX_CREDENTIAL_HOPS + 1 - |seen|
  {
    var id, k := seen[0], |seen| - 1;
    var next := accounts[seen[k]].usesCredentialsOf;
    assert IdAt(accounts, id, k + 1) == next;
    if next.None? {
      forall n: nat | n > k ensures IdAt(accounts, id, n).None? {
        EndsForGood(accounts, id, k + 1, n);
      }
      forall n: nat | n < k ensures !LogsIn(accounts, seen[n]) {
        assert IdAt(accounts, id, n + 1) == Some(seen[n + 1]);
      }
      assert IdAt(accounts, id, k) == Some(seen[k]);
    } else if next.value in seen {
      forall n: nat
        ensures IdAt(accounts, id, n).Some? && IdAt(accounts, id, n).value in seen
        ensures !LogsIn(accounts, IdAt(accounts, id, n).value)
      {
        StaysInLoop(accounts, seen, n);
      }
      var i :| 0 <= i < |seen| && seen[i] == next.value;
      assert IdAt(accounts, id, i) == IdAt(accounts, id, k + 1);
      assert Revisits(accounts, id, MAX_CREDENTIAL_HOPS + 1);
    } else if |seen| > MAX_CREDENTIAL_HOPS {
      forall n: nat | n <= k ensures IdAt(accounts, id, n) == Some(seen[n]) && !LogsIn(accounts, seen[n]) {
        assert IdAt(accounts, id, n + 1).Some?;
      }
    } else if next.value !in accounts {
      assert IdAt(accounts, id, k + 2).None?;
      forall n: nat | n > k + 1 ensures IdAt(accounts, id, n).None? {
        EndsForGood(accounts, id, k + 2, n);
      }
      forall n: nat | n <= k ensures IdAt(accounts, id, n) == Some(seen[n]) && !LogsIn(accounts, seen[n]) {
        assert IdAt(accounts, id, n + 1).Some?;
      }
    } else {
      WalkClassified(accounts, seen + [next.value]);
    }
  }

  /** The walk ends on every account graph, and its answer is decided by the chain alone: the
      one account that logs in within four borrowings, or exactly one refusal. */
  lemma HolderClassified(accounts: Accounts, id: Id)
    requires id in accounts
    ensures Classified(accounts, id, Walk(accounts, [id]))
  {
    WalkClassified(accounts, [id]);
  }

  // ------------------------------------------------------------- credentials

  function CredentialsOf(accounts: Accounts, sessions: map<Id, Session>, id: Id, todaysCutoff: int)
    : Result<Credentials, SessionError>
  {
    if id !in accounts then Failure(NotConfigured(id))
    else
      var account := accounts[id];
      if !account.enabled then Failure(Disabled(id))
      else
        match Walk(accounts, [id])
        case Failure(error) => Failure(error)
        case Success(holder) =>
          if holder.id !in sessions then Failure(NoSession(id, holder.id))
          else if sessions[holder.id].createdAt < todaysCutoff then Failure(Expired(id))
          else if holder.apiKey.GetOr("") == "" then Failure(NoApiKey(holder.id))
          else Success(Credentials(id, account.broker, account.clientId, holder.apiKey.value,
                                   sessions[holder.id].accessToken, account.staticIp, Some(holder.id)))
  }

  ghost predicate SwitchedOn(accounts: Accounts, id: Id) { id in accounts && accounts[id].enabled }

  /** The one account that `id` logs in as, within four borrowings. */
  ghost predicate LogsInAs(accounts: Accounts, id: Id, holder: Id) {
    SwitchedOn(accounts, id) && HolderWithin(accounts, id, 4, holder)
  }

  ghost predicate HasSession(sessions: map<Id, Session>, holder: Id, todaysCutoff: int) {
    holder in sessions && todaysCutoff <= sessions[holder].createdAt
  }

  ghost predicate HasKey(accounts: Accounts, holder: Id) {
    holder in accounts && accounts[holder].apiKey.Some? && accounts[holder].apiKey.value != ""
  }

  lemma OneHolder(accounts: Accounts, id: Id)
    requires SwitchedOn(accounts, id)
    ensures var walk := Walk(accounts, [id]);
      && (forall h :: LogsInAs(accounts, id, h) <==> walk.Success? && walk.value.id == h)
      && (walk.Success? ==> walk.value.id in accounts && accounts[walk.value.id] == walk.value)
      && (walk.Failure? ==> walk.error.Loop? || walk.error.NotConfigured? || walk.error.TooFar?)
  {
    HolderClassified(accounts, id);
  }

  /** Which refusal comes back for the account or its chain, from the configuration alone. */
  lemma ChainAnswers(accounts: Accounts, sessions: map<Id, Session>, id: Id, todaysCutoff: int)
    ensures var r := CredentialsOf(accounts, sessions, id, todaysCutoff);
      && (forall x :: r == Failure(Disabled(x)) <==> x == id && id in accounts && !accounts[id].enabled)
      && (forall x :: r == Failure(NotConfigured(x)) <==>
            (x == id && id !in accounts) || (SwitchedOn(accounts, id) && MissingWithin(accounts, id, 4, x)))
      && ((r.Failure? && r.error.Loop?) <==> SwitchedOn(accounts, id) && Revisits(accounts, id, 5))
      && ((r.Failure? && r.error.TooFar?) <==>
            SwitchedOn(accounts, id) && IdAt(accounts, id, 5).Some? && !Revisits(accounts, id, 5))
  {
    if SwitchedOn(accounts, id) {
      HolderClassified(accounts, id);
    }
  }

  /** For an account that is switched on and whose chain reaches a login, the holder decides: its
      session first, then its cut-off, then its key; with all three there are credentials, and
      without a holder there never are. */
  lemma HolderAnswers(accounts: Accounts, sessions: map<Id, Session>, id: Id, todaysCutoff: int)
    ensures var r := CredentialsOf(accounts, sessions, id, todaysCutoff);
      && (forall h :: r == Failure(NoSession(id, h)) <==> LogsInAs(accounts, id, h) && h !in sessions)
      && (r == Failure(Expired(id)) <==>
            exists h :: LogsInAs(accounts, id, h) && h in sessions && sessions[h].createdAt < todaysCutoff)
      && (forall h :: r == Failure(NoApiKey(h)) <==>
            LogsInAs(accounts, id, h) && HasSession(sessions, h, todaysCutoff) && !HasKey(accounts, h))
      && (r.Success? <==> exists h ::
            LogsInAs(accounts, id, h) && HasSession(sessions, h, todaysCutoff) && HasKey(accounts, h))
  {
    if SwitchedOn(accounts, id) {
      OneHolder(accounts, id);
      var walk := Walk(accounts, [id]);
      if walk.Success? {
        assert LogsInAs(accounts, id, walk.value.id);
        assert HasKey(accounts, walk.value.id) <==> walk.value.apiKey.GetOr("") != "";
      }
    }
  }

  /** What a refusal for the chain names: a loop the accounts passed, ending where it closes; too
      long a chain the account asked for and how many were passed. */
  lemma {:induction false} ChainRefusalsTell(accounts: Accounts, seen: seq<Id>)
    requires ChainSoFar(accounts, seen)
    ensures var walk := Walk(accounts, seen);
      && (walk.Failure? && walk.error.Loop? ==> ClosedPath(accounts, seen[0], walk.error.path))
      && (walk.Failure? && walk.error.TooFar? ==> walk.error == TooFar(seen[0], 5))
    decreases MAX_CREDENTIAL_HOPS + 1 - |seen|
  {
    var next := accounts[seen[|seen| - 1]].usesCredentialsOf;
    if next.Some? {
      if next.value in seen {
        PathCloses(accounts, seen, next.value);
      } else if |seen| <= MAX_CREDENTIAL_HOPS && next.value in accounts {
        ChainGrows(accounts, seen, next.value);
        ChainRefusalsTell(accounts, seen + [next.value]);
      }
    }
  }

  lemma ChainGrows(accounts: Accounts, seen: seq<Id>, next: Id)
    requires ChainSoFar(accounts, seen) && accounts[seen[|seen| - 1]].usesCredentialsOf == Some(next)
    requires next !in seen && next in accounts && |seen| <= MAX_CREDENTIAL_HOPS
    ensures ChainSoFar(accounts, seen + [next]) && (seen + [next])[0] == seen[0]
  {
    assert IdAt(accounts, seen[0], |seen|) == Some(next);
  }

  lemma PathCloses(accounts: Accounts, seen: seq<Id>, next: Id)
    requires ChainSoFar(accounts, seen) && accounts[seen[|seen| - 1]].usesCredentialsOf == Some(next) && next in seen
    ensures ClosedPath(accounts, seen[0], seen + [next])
  {
    var path := seen + [next];
    assert path[..|path| - 1] == seen;
    assert IdAt(accounts, seen[0], |seen|) == Some(next);
  }

  ghost predicate ClosedPath(accounts: Accounts, id: Id, path: seq<Id>) {
    && |path| >= 2 && path[|path| - 1] in path[..|path| - 1]
    && (forall i :: 0 <= i < |path| ==> IdAt(accounts, id, i) == Some(path[i]))
    && (forall i, j :: 0 <= i < j < |path| - 1 ==> path[i] != path[j])
  }

  /** An account's credentials are borrowed exactly when it names another's. */
  lemma BorrowedExactlyWhenNamed(accounts: Accounts, sessions: map<Id, Session>, id: Id, todaysCutoff: int)
    requires CredentialsOf(accounts, sessions, id, todaysCutoff).Success?
    ensures CredentialsOf(accounts, sessions, id, todaysCutoff).value.IsBorrowed()
       <==> accounts[id].usesCredentialsOf.Some?
  {
    HolderClassified(accounts, id);
    var holder := Walk(accounts, [id]).value.id;
    assert HolderWithin(accounts, id, MAX_CREDENTIAL_HOPS, holder);
  }

  /** Accounts reaching the same holder trade on one token and key, or are all refused for
      the holder's session, and each keeps its own identity and route. */
  lemma SharedHolderSharedFate(accounts: Accounts, sessions: map<Id, Session>, a: Id, b: Id,
                               holder: Id, todaysCutoff: int)
    requires a in accounts && accounts[a].enabled && b in accounts && accounts[b].enabled
    requires HolderWithin(accounts, a, MAX_CREDENTIAL_HOPS, holder)
    requires HolderWithin(accounts, b, MAX_CREDENTIAL_HOPS, holder)
    ensures var ra, rb := CredentialsOf(accounts, sessions, a, todaysCutoff), CredentialsOf(accounts, sessions, b, todaysCutoff);
      && (ra.Success? <==> rb.Success?)
      && (ra.Success? <==>
            holder in sessions && sessions[holder].createdAt >= todaysCutoff && accounts[holder].apiKey.GetOr("") != "")
      && (ra.Success? ==>
            && ra.value.accessToken == rb.value.accessToken == sessions[holder].accessToken
            && Some(ra.value.apiKey) == Some(rb.value.apiKey) == accounts[holder].apiKey
            && ra.value.authenticatedAs == rb.value.authenticatedAs == Some(holder)
            && OwnIdentity(accounts[a], ra.value) && OwnIdentity(accounts[b], rb.value))
  {
    HolderClassified(accounts, a);
    HolderClassified(accounts, b);
  }

  ghost predicate OwnIdentity(account: Account, credentials: Credentials) {
    && credentials.tradingClient == account.id
    && credentials.broker == account.broker
    && credentials.clientId == account.clientId
    && credentials.staticIp == account.staticIp
  }

  // --------------------------------------------------------------- streaming

  ghost predicate Distinct(ids: seq<Id>) {
    forall i, j :: 0 <= i < j < |ids| ==> ids[i] != ids[j]
  }

  /** The order in which a table's rows come: every id of it, once. */
  ghost predicate InOrder(accounts: Accounts, order: seq<Id>) {
    Distinct(order) && forall id :: id in order <==> id in accounts
  }

  lemma OrderedInTable(accounts: Accounts, order: seq<Id>)
    requires InOrder(accounts, order)
    ensures forall i :: 0 <= i < |order| ==> order[i] in accounts
  {
    forall i | 0 <= i < |order| ensures order[i] in accounts {
      assert order[i] in order;
    }
  }

  /** Those of the first `n` accounts that are enabled and want a socket. */
  function Streaming(accounts: Accounts, order: seq<Id>, n: nat): seq<Id>
    requires n <= |order| && forall i :: 0 <= i < n ==> order[i] in accounts
  {
    if n == 0 then []
    else
      var before, account := Streaming(accounts, order, n - 1), accounts[order[n - 1]];
      if account.enabled && account.websocketEnabled then before + [account.id] else before
  }

  /** `a` comes before `b` among the first `n`. */
  ghost predicate Before(order: seq<Id>, n: nat, a: Id, b: Id)
    requires n <= |order|
  {
    exists p, q :: 0 <= p < q < n && order[p] == a && order[q] == b
  }

  lemma {:induction false} StreamingMembers(accounts: Accounts, order: seq<Id>, n: nat, id: Id)
    requires n <= |order| && forall i :: 0 <= i < n ==> order[i] in accounts
    ensures id in Streaming(accounts, order, n) <==>
      (exists i :: 0 <= i < n && order[i] == id) && accounts[id].enabled && accounts[id].websocketEnabled
  {
    if n > 0 {
      StreamingMembers(accounts, order, n - 1, id);
    }
  }

  lemma {:induction false} StreamingOrdered(accounts: Accounts, order: seq<Id>, n: nat, i: nat, j: nat)
    requires n <= |order| && forall i :: 0 <= i < n ==> order[i] in accounts
    requires i < j < |Streaming(accounts, order, n)|
    ensures Before(order, n, Streaming(accounts, order, n)[i], Streaming(accounts, order, n)[j])
  {
    var before, ids := Streaming(accounts, order, n - 1), Streaming(accounts, order, n);
    if j < |before| {
      StreamingOrdered(accounts, order, n - 1, i, j);
    } else {
      StreamingMembers(accounts, order, n - 1, before[i]);
      var p :| 0 <= p < n - 1 && order[p] == before[i];
      assert order[p] == ids[i] && order[n - 1] == ids[j];
    }
  }

  /** The accounts to stream are listed in the table's order, none of them twice and none left
      out; none of them is refused credentials for being unknown or switched off. */
  lemma StreamingListed(accounts: Accounts, order: seq<Id>, sessions: map<Id, Session>, todaysCutoff: int)
    requires InOrder(accounts, order)
    ensures var ids := Streaming(accounts, order, |order|);
      && Distinct(ids)
      && (forall id :: id in ids <==> id in accounts && accounts[id].enabled && accounts[id].websocketEnabled)
      && (forall i, j :: 0 <= i < j < |ids| ==> Before(order, |order|, ids[i], ids[j]))
      && (forall id :: id in ids ==>
            CredentialsOf(accounts, sessions, id, todaysCutoff) !in {Failure(NotConfigured(id)), Failure(Disabled(id))})
  {
    var ids := Streaming(accounts, order, |order|);
    forall id
      ensures id in ids <==> id in accounts && accounts[id].enabled && accounts[id].websocketEnabled
    {
      StreamingMembers(accounts, order, |order|, id);
      assert id in order <==> id in accounts;
    }
    forall i, j | 0 <= i < j < |ids| ensures Before(order, |order|, ids[i], ids[j]) && ids[i] != ids[j] {
      StreamingOrdered(accounts, order, |order|, i, j);
    }
    forall id | id in ids
      ensures CredentialsOf(accounts, sessions, id, todaysCutoff) !in {Failure(NotConfigured(id)), Failure(Disabled(id))}
    {
      RefusedForOthers(accounts, sessions, id, todaysCutoff);
    }
  }

  lemma RefusedForOthers(accounts: Accounts, sessions: map<Id, Session>, id: Id, todaysCutoff: int)
    requires id in accounts && accounts[id].enabled
    ensures CredentialsOf(accounts, sessions, id, todaysCutoff) !in {Failure(NotConfigured(id)), Failure(Disabled(id))}
  {
    HolderClassified(accounts, id);
  }

  // ---------------------------------------------------------------- resolver

  class SessionResolver {
    var accounts: Accounts
    var order: seq<Id>
    var sessions: map<Id, Session>

    ghost predicate Valid()
      reads this
    {
      InOrder(accounts, order)
    }

    constructor (accounts: Accounts, order: seq<Id>, sessions: map<Id, Session>)
      requires InOrder(accounts, order)
      ensures Valid() && this.accounts == accounts && this.order == order && this.sessions == sessions
    {
      this.accounts, this.order, this.sessions := accounts, order, sessions;
    }

    /** The tables as they are now, instead of what was read before. */
    method Replace(accounts: Accounts, order: seq<Id>, sessions: map<Id, Session>)
      requires InOrder(accounts, order)
      modifies this
      ensures Valid() && this.accounts == accounts && this.order == order && this.sessions == sessions
    {
      this.accounts, this.order, this.sessions := accounts, order, sessions;
    }

    /** From account to account, until one has a session of its own. */
    method SessionHolder(account: Account) returns (r: Result<Account, SessionError>)
      requires account.id in accounts && accounts[account.id] == account
      ensures r == Walk(accounts, [account.id])
      ensures Classified(accounts, account.id, r)
    {
      HolderClassified(accounts, account.id);
      var seen := [account.id];
      var current := account;
      while current.usesCredentialsOf.Some?
        invariant 1 <= |seen| <= MAX_CREDENTIAL_HOPS + 1 && seen[0] == account.id
        invariant current.id == seen[|seen| - 1] && current.id in accounts && accounts[current.id] == current
        invariant Walk(accounts, [account.id]) == Walk(accounts, seen)
        decreases MAX_CREDENTIAL_HOPS + 1 - |seen|
      {
        var next := current.usesCredentialsOf.value;
        if next in seen {
          return Failure(Loop(seen + [next]));
        }
        if |seen| > MAX_CREDENTIAL_HOPS {
          return Failure(TooFar(account.id, |seen|));
        }
        if next !in accounts {
          return Failure(NotConfigured(next));
        }
        current := accounts[next];
        seen := seen + [current.id];
      }
      return Success(current);
    }

    /** The holder's token and key under the account's own identity, or the first refusal. */
    method CredentialsFor(tradingClient: Id, todaysCutoff: int) returns (r: Result<Credentials, SessionError>)
      ensures r == CredentialsOf(accounts, sessions, tradingClient, todaysCutoff)
    {
      if tradingClient !in accounts {
        return Failure(NotConfigured(tradingClient));
      }
      var account := accounts[tradingClient];
      if !account.enabled {
        return Failure(Disabled(tradingClient));
      }
      var found := SessionHolder(account);
      if found.Failure? {
        return Failure(found.error);
      }
      var holder := found.value;
      if holder.id !in sessions {
        return Failure(NoSession(tradingClient, holder.id));
      }
      var session := sessions[holder.id];
      if session.createdAt < todaysCutoff {
        return Failure(Expired(tradingClient));
      }
      if holder.apiKey.GetOr("") == "" {
        return Failure(NoApiKey(holder.id));
      }
      return Success(Credentials(account.id, account.broker, account.clientId, holder.apiKey.value,
                                 session.accessToken, account.staticIp, Some(holder.id)));
    }

    /** Who gets an order-update stream. */
    method StreamingClients() returns (ids: seq<Id>)
      requires Valid()
      ensures ids == Streaming(accounts, order, |order|)
    {
      OrderedInTable(accounts, order);
      ids := [];
      for n := 0 to |order|
        invariant forall i :: 0 <= i < |order| ==> order[i] in accounts
        invariant ids == Streaming(accounts, order, n)
      {
        var account := accounts[order[n]];
        if account.enabled && account.websocketEnabled {
          ids := ids + [account.id];
        }
      }
    }
  }
}
