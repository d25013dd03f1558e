/**
 * The access gate: the login screen's steps and the decision rules it applies
 * to the trader id and the approval flag kept in `localStorage`.
 */
module Auth {
  import opened Wrappers
  import opened JsString
  import opened Browser

  const TraderIdKey: string := "trader_id"
  const ApprovedKey: string := "trader_approved"

  /** Ids admitted without the stored approval flag. */
  const WhitelistedIds: seq<string> := ["TRADER-EKO8NSSO"]

  /** Every generated id starts with this prefix. */
  const IdPrefix: string := "TRADER-"

  datatype Step = Login | Register | Pending

  /**
   * `localStorage.getItem('trader_approved') === 'true'`: a strict comparison,
   * so a missing flag and every other stored text read as not approved.
   */
  function StoredApproved(items: map<string, string>): (approved: bool)
    ensures ApprovedKey !in items ==> !approved
    ensures ApprovedKey in items ==> (approved <==> items[ApprovedKey] == "true")
  {
    ApprovedKey in items && items[ApprovedKey] == "true"
  }

  /** `localStorage.getItem('trader_id') || ''`: a missing id reads as the empty one. */
  function StoredId(items: map<string, string>): (id: string)
    ensures TraderIdKey !in items ==> id == ""
    ensures TraderIdKey in items ==> id == items[TraderIdKey]
  {
    if TraderIdKey in items then items[TraderIdKey] else ""
  }

  /** The step the screen opens on: PENDING exactly when an id is stored but not approved. */
  function InitialStep(items: map<string, string>): (s: Step)
    ensures s != Register
    ensures s == Pending <==> StoredId(items) != "" && !StoredApproved(items)
  {
    if StoredId(items) != "" && !StoredApproved(items) then Pending else Login
  }

  /** The id `checkApproval` verifies: `(loginId || userId || '').trim()`. */
  function IdToVerify(loginId: string, userId: string): (id: string)
    ensures loginId != "" ==> id == Trim(loginId)
    ensures loginId == "" ==> id == Trim(userId)
  {
    Trim(if loginId != "" then loginId else userId)
  }

  /** What `checkApproval` decides. */
  datatype Decision = Grant(id: string) | Refuse(id: string) | AskForId

  /**
   * Access is granted when the stored flag says so or the id is whitelisted;
   * otherwise a non-empty id is refused (pending) and an empty one only
   * prompts for an id.
   */
  function Decide(items: map<string, string>, loginId: string, userId: string): (d: Decision)
    ensures d.Grant? <==> StoredApproved(items) || IdToVerify(loginId, userId) in WhitelistedIds
    ensures d.Refuse? <==> !d.Grant? && IdToVerify(loginId, userId) != ""
    ensures !d.AskForId? ==> d.id == IdToVerify(loginId, userId)
  {
    var id := IdToVerify(loginId, userId);
    if StoredApproved(items) || id in WhitelistedIds then Grant(id)
    else if id != "" then Refuse(id)
    else AskForId
  }

  /** The store after a grant: approved, with the verified id. */
  function Granted(items: map<string, string>, id: string): (m: map<string, string>)
    ensures StoredApproved(m) && StoredId(m) == id
    ensures forall k | k in items && k != TraderIdKey && k != ApprovedKey :: k in m && m[k] == items[k]
  {
    items[ApprovedKey := "true"][TraderIdKey := id]
  }

  /** The store after registering `newId`: the id, explicitly not approved. */
  function Registered(items: map<string, string>, newId: string): (m: map<string, string>)
    ensures !StoredApproved(m) && StoredId(m) == newId
    ensures forall k | k in items && k != TraderIdKey && k != ApprovedKey :: k in m && m[k] == items[k]
  {
    items[TraderIdKey := newId][ApprovedKey := "false"]
  }

  /** The store after logging out: neither key is left. */
  function LoggedOut(items: map<string, string>): (m: map<string, string>)
    ensures TraderIdKey !in m && ApprovedKey !in m
    ensures forall k | k in items && k != TraderIdKey && k != ApprovedKey :: k in m && m[k] == items[k]
  {
    items - {TraderIdKey, ApprovedKey}
  }

  /** The characters `Math.random().toString(36)` produces once upper-cased. */
  predicate IsIdSuffix(s: string) {
    forall i | 0 <= i < |s| :: '0' <= s[i] <= '9' || 'A' <= s[i] <= 'Z'
  }

  /** Approval is sticky: once granted, a reload opens on LOGIN and any later check grants again. */
  lemma GrantIsSticky(items: map<string, string>, id: string, loginId: string, userId: string)
    ensures InitialStep(Granted(items, id)) == Login
    ensures Decide(Granted(items, id), loginId, userId).Grant?
  {
  }

  /**
   * A fresh registration reopens on PENDING, and checking it is refused unless
   * the generated id happens to be the whitelisted one.
   */
  lemma {:induction false} RegistrationIsPending(items: map<string, string>, suffix: string)
    requires IsIdSuffix(suffix)
    requires IdPrefix + suffix !in WhitelistedIds
    ensures InitialStep(Registered(items, IdPrefix + suffix)) == Pending
    ensures Decide(Registered(items, IdPrefix + suffix), "", IdPrefix + suffix) == Refuse(IdPrefix + suffix)
  {
    var id := IdPrefix + suffix;
    GeneratedIdIsTrimmed(suffix);
    assert Trim(id) == id;
  }

  /** A generated id starts with 'T' and ends in '-' or a suffix character, so trimming keeps it. */
  lemma GeneratedIdIsTrimmed(suffix: string)
    requires IsIdSuffix(suffix)
    ensures Trim(IdPrefix + suffix) == IdPrefix + suffix
  {
    var id := IdPrefix + suffix;
    assert id[0] == 'T';
    assert !IsJsWhitespace(id[|id| - 1]) by {
      if suffix == "" {
        assert id[|id| - 1] == '-';
      } else {
        assert id[|id| - 1] == suffix[|suffix| - 1];
      }
    }
    TrimUnchanged(id);
  }

  /** After logging out, a reload opens on LOGIN and nothing is approved. */
  lemma LogoutResets(items: map<string, string>)
    ensures InitialStep(LoggedOut(items)) == Login
    ensures !StoredApproved(LoggedOut(items)) && StoredId(LoggedOut(items)) == ""
  {
  }

  /** The login screen's own state; the store is shared with the rest of the page. */
  class AuthScreen {
    const store: LocalStorage
    var step: Step
    var loginId: string
    var userId: string

    /** Mounting: the initial step and the stored id, with an empty id field. */
    constructor (store: LocalStorage)
      ensures this.store == store
      ensures step == InitialStep(store.items)
      ensures userId == StoredId(store.items) && loginId == ""
    {
      this.store := store;
      step := InitialStep(store.items);
      userId := StoredId(store.items);
      loginId := "";
    }

    /** The id field's change handler, which upper-cases the typed text. */
    method EnterLoginId(value: string)
      modifies this
      ensures loginId == AsciiUpper(value)
      ensures step == old(step) && userId == old(userId)
    {
      loginId := AsciiUpper(value);
    }

    /** "Solicitar Novo Registro": switch to the registration form. */
    method ShowRegister()
      modifies this
      ensures step == Register
      ensures loginId == old(loginId) && userId == old(userId)
    {
      step := Register;
    }

    /** "Já possui ID? Login": switch back to the login form. */
    method ShowLogin()
      modifies this
      ensures step == Login
      ensures loginId == old(loginId) && userId == old(userId)
    {
      step := Login;
    }

    /**
     * `checkApproval`: on a grant, records approval and the id and reports it
     * (`granted`, the call of `onAccessGranted`); a refused id moves to
     * PENDING; an empty id changes nothing.
     */
    method CheckApproval() returns (granted: bool)
      modifies this, store
      ensures var d := Decide(old(store.items), old(loginId), old(userId));
              && granted == d.Grant?
              && (d.Grant? ==> store.items == Granted(old(store.items), d.id) && step == old(step))
              && (d.Refuse? ==> store.items == old(store.items) && step == Pending)
              && (d.AskForId? ==> store.items == old(store.items) && step == old(step))
      ensures loginId == old(loginId) && userId == old(userId)
    {
      var idToVerify := IdToVerify(loginId, userId);
      var isNowApproved := StoredApproved(store.items) || idToVerify in WhitelistedIds;
      if isNowApproved {
        store.SetItem(ApprovedKey, "true");
        store.SetItem(TraderIdKey, idToVerify);
        granted := true;
      } else if idToVerify != "" {
        step := Pending;
        granted := false;
      } else {
        granted := false;
      }
    }

    /** `handleRegister`: stores a new unapproved id built from the random `suffix` and moves to PENDING. */
    method HandleRegister(suffix: string)
      modifies this, store
      ensures userId == IdPrefix + suffix && step == Pending
      ensures store.items == Registered(old(store.items), userId)
      ensures loginId == old(loginId)
    {
      var newId := IdPrefix + suffix;
      store.SetItem(TraderIdKey, newId);
      store.SetItem(ApprovedKey, "false");
      userId := newId;
      step := Pending;
    }

    /** `handleLogout`: forgets the id and the approval (the page then reloads). */
    method HandleLogout()
      modifies store
      ensures store.items == LoggedOut(old(store.items))
    {
      store.RemoveItem(TraderIdKey);
      store.RemoveItem(ApprovedKey);
    }
  }
}
