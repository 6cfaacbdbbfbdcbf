/**
 * The credential store of `src/services/authService.js`. The device keychain is
 * three optional slots: the access token (the generic password), the refresh
 * token (the 'auth' internet credential) and the user details (the 'user'
 * internet credential). Every keychain call may throw; which one throws is a
 * parameter `failAt`: the position (1, 2, 3, ...) of the first keychain call of
 * the operation that throws, 0 when none does.
 */
module AuthService {
  import opened JsText

  /** The keychain contents. */
  datatype Slots = Slots(access: Option<string>, refresh: Option<string>, user: Option<string>)

  /** How many keychain writes `saveTokens` makes: the access token always, the
      refresh token and the user details only when they are truthy. */
  function SaveWrites(refreshToken: Option<string>, userDetails: Option<string>): (n: nat)
    ensures 1 <= n <= 3
  {
    1 + (if Truthy(refreshToken) then 1 else 0) + (if Truthy(userDetails) then 1 else 0)
  }

  /**
   * What `saveTokens(accessToken, refreshToken, userDetails)` leaves in the keychain
   * and what it returns. The writes run in order and stop at the first that throws,
   * so a failed save can have written a prefix of them.
   */
  function Save(s: Slots, accessToken: string, refreshToken: Option<string>, userDetails: Option<string>, failAt: nat)
    : (r: (Slots, bool))
    ensures r.1 <==> failAt == 0 || failAt > SaveWrites(refreshToken, userDetails)
    ensures r.1 ==> r.0.access == Some(accessToken)
    ensures r.1 && Truthy(refreshToken) ==> r.0.refresh == refreshToken
    ensures r.1 && Truthy(userDetails) ==> r.0.user == userDetails
    ensures !Truthy(refreshToken) ==> r.0.refresh == s.refresh
    ensures !Truthy(userDetails) ==> r.0.user == s.user
    ensures failAt == 1 ==> r.0 == s
    ensures failAt != 1 ==> r.0.access == Some(accessToken)
    ensures failAt == 1 || failAt == 2 ==> r.0.refresh == s.refresh
    ensures !r.1 ==> r.0.user == s.user
    ensures !r.1 && failAt == 3 ==> r.0 == s.(access := Some(accessToken), refresh := refreshToken)
  {
    var writesRefresh := Truthy(refreshToken);
    var userCall := if writesRefresh then 3 else 2;
    if failAt == 1 then (s, false)
    else
      var s1 := s.(access := Some(accessToken));
      if writesRefresh && failAt == 2 then (s1, false)
      else
        var s2 := if writesRefresh then s1.(refresh := refreshToken) else s1;
        if Truthy(userDetails) && failAt == userCall then (s2, false)
        else
          var s3 := if Truthy(userDetails) then s2.(user := userDetails) else s2;
          (s3, true)
  }

  /** What `clearTokens()` leaves in the keychain and what it returns: three resets
      in order, stopping at the first that throws. */
  function Clear(s: Slots, failAt: nat): (r: (Slots, bool))
    ensures r.1 <==> failAt == 0 || failAt > 3
    ensures r.1 ==> r.0 == Slots(None, None, None)
    ensures failAt == 1 ==> r.0 == s
    ensures failAt != 1 ==> r.0.access == None
    ensures failAt != 1 && failAt != 2 ==> r.0.refresh == None
    ensures failAt == 2 ==> r.0 == s.(access := None)
    ensures failAt == 3 ==> r.0 == s.(access := None, refresh := None)
    ensures r.0.user == None || r.0.user == s.user
  {
    if failAt == 1 then (s, false)
    else if failAt == 2 then (s.(access := None), false)
    else if failAt == 3 then (s.(access := None, refresh := None), false)
    else (Slots(None, None, None), true)
  }

  class CredentialStore {
    var access: Option<string>
    var refresh: Option<string>
    var user: Option<string>

    function Contents(): Slots
      reads this
    {
      Slots(access, refresh, user)
    }

    constructor (initial: Slots)
      ensures Contents() == initial
    {
      access, refresh, user := initial.access, initial.refresh, initial.user;
    }

    /** `saveTokens`: the keychain writes in source order; a throwing write ends the
        sequence and the result is false. */
    method SaveTokens(accessToken: string, refreshToken: Option<string>, userDetails: Option<string>, failAt: nat)
      returns (ok: bool)
      modifies this
      ensures (Contents(), ok) == Save(old(Contents()), accessToken, refreshToken, userDetails, failAt)
    {
      var call := 1;
      if call == failAt { return false; }
      access := Some(accessToken);
      call := call + 1;
      if Truthy(refreshToken) {
        if call == failAt { return false; }
        refresh := refreshToken;
        call := call + 1;
      }
      if Truthy(userDetails) {
        if call == failAt { return false; }
        user := userDetails;
      }
      return true;
    }

    /** `getAccessToken`: the stored access token, or null when there is none or the read throws. */
    method GetAccessToken(readFails: bool) returns (token: Option<string>)
      ensures readFails ==> token == None
      ensures !readFails ==> token == access
    {
      if readFails { return None; }
      token := access;
    }

    /** `getRefreshToken`: the stored refresh token, or null when there is none or the read throws. */
    method GetRefreshToken(readFails: bool) returns (token: Option<string>)
      ensures readFails ==> token == None
      ensures !readFails ==> token == refresh
    {
      if readFails { return None; }
      token := refresh;
    }

    /** `getUserDetails`: the stored user details, or null when there are none or the read throws. */
    method GetUserDetails(readFails: bool) returns (details: Option<string>)
      ensures readFails ==> details == None
      ensures !readFails ==> details == user
    {
      if readFails { return None; }
      details := user;
    }

    /** `clearTokens`: three resets in source order; a throwing reset ends the sequence
        and the result is false. */
    method ClearTokens(failAt: nat) returns (ok: bool)
      modifies this
      ensures (Contents(), ok) == Clear(old(Contents()), failAt)
    {
      if failAt == 1 { return false; }
      access := None;
      if failAt == 2 { return false; }
      refresh := None;
      if failAt == 3 { return false; }
      user := None;
      return true;
    }
  }

  /** Save on a fresh store, then read both tokens back: the saved values come back. */
  method SaveAndReload(initial: Slots, accessToken: string, refreshToken: string, userDetails: Option<string>)
    returns (ok: bool, access: Option<string>, refresh: Option<string>)
    requires refreshToken != ""
    ensures ok
    ensures access == Some(accessToken) && refresh == Some(refreshToken)
  {
    var store := new CredentialStore(initial);
    ok := store.SaveTokens(accessToken, Some(refreshToken), userDetails, 0);
    access := store.GetAccessToken(false);
    refresh := store.GetRefreshToken(false);
  }

  /** Clear a store, then read every slot back: all three come back null. */
  method ClearAndReload(initial: Slots) returns (ok: bool, access: Option<string>, refresh: Option<string>, user: Option<string>)
    ensures ok
    ensures access == None && refresh == None && user == None
  {
    var store := new CredentialStore(initial);
    ok := store.ClearTokens(0);
    access := store.GetAccessToken(false);
    refresh := store.GetRefreshToken(false);
    user := store.GetUserDetails(false);
  }
}
