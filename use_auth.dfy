/**
  The session hook of `src/hooks/useAuth.tsx`: the token, the profile and the
  unsaved-form flag, kept in step with the browser's key-value storage by the mount
  effect, the storage-event listener, `saveCredentails` and `logout`. The storage
  is a map from keys to strings; the JSON codec is a pair of parameters, `parse`
  answering `None` both when the text is not valid JSON and when it encodes `null`
  (each of which leaves no profile). Router pushes are recorded in order.
*/
module UseAuth {
  import opened Wrappers
  import opened Types

  const TokenKey := "token"
  const ProfileKey := "profile"

  /** `profile?.role === 'admin' || profile?.role === 'subadmin'`. */
  predicate IsAdmin(profile: Option<Profile>)
  {
    profile.Some? && (profile.value.role == "admin" || profile.value.role == "subadmin")
  }

  /** `!!token`: present and not empty. */
  predicate IsAuthenticated(token: Option<string>)
  {
    token.Some? && token.value != ""
  }

  /** The profile a stored text yields: none for a missing or empty text, otherwise what parsing gives. */
  function ParsedProfile(text: Option<string>, parse: string -> Option<Profile>): Option<Profile>
  {
    if text.Some? && text.value != "" then parse(text.value) else None
  }

  /** A key's value, `getItem`: `None` when the key is absent. */
  function Get(storage: map<string, string>, key: string): (r: Option<string>)
    ensures r.Some? <==> key in storage
  {
    if key in storage then Some(storage[key]) else None
  }

  class AuthState {
    /** This tab's view of the browser storage. */
    var storage: map<string, string>
    var token: Option<string>
    var profile: Option<Profile>
    var formIsDirty: bool
    /** Whether the API client still carries a default Authorization header. */
    var authHeader: bool
    /** The paths handed to `router.push`, oldest first. */
    var pushes: seq<string>

    /** The hook's first render: the token read from storage, no profile yet, a clean form. */
    constructor(storage: map<string, string>, authHeader: bool)
      ensures this.storage == storage && this.authHeader == authHeader
      ensures token == Get(storage, TokenKey) && profile.None? && !formIsDirty && pushes == []
    {
      this.storage := storage;
      this.authHeader := authHeader;
      token := Get(storage, TokenKey);
      profile := None;
      formIsDirty := false;
      pushes := [];
    }

    /**
      The mount effect: the token is read again, a missing one sends the user to
      '/', and a stored profile replaces the current one with its parse (none when
      the text is invalid); with no stored profile the current one stays.
    */
    method Mount(parse: string -> Option<Profile>)
      modifies this
      ensures token == Get(storage, TokenKey)
      ensures pushes == (if IsAuthenticated(token) then old(pushes) else old(pushes) + ["/"])
      ensures profile == (if IsAuthenticated(Get(storage, ProfileKey)) then ParsedProfile(Get(storage, ProfileKey), parse)
                          else old(profile))
      ensures storage == old(storage) && formIsDirty == old(formIsDirty) && authHeader == old(authHeader)
    {
      var savedToken := Get(storage, TokenKey);
      var savedProfile := Get(storage, ProfileKey);
      token := savedToken;
      if !(savedToken.Some? && savedToken.value != "") {
        pushes := pushes + ["/"];
      }
      if savedProfile.Some? && savedProfile.value != "" {
        profile := parse(savedProfile.value);
      }
    }

    /**
      The storage listener: an event for the token key copies its new value, one for
      the profile key parses its new value (none when absent, empty or invalid);
      other keys change nothing. The storage itself was changed by the other tab.
    */
    method OnStorage(key: Option<string>, newValue: Option<string>, parse: string -> Option<Profile>)
      modifies this
      ensures token == (if key == Some(TokenKey) then newValue else old(token))
      ensures profile == (if key == Some(ProfileKey) then ParsedProfile(newValue, parse) else old(profile))
      ensures storage == old(storage) && formIsDirty == old(formIsDirty) && authHeader == old(authHeader)
      ensures pushes == old(pushes)
    {
      if key == Some(TokenKey) {
        token := newValue;
      }
      if key == Some(ProfileKey) {
        if newValue.Some? && newValue.value != "" {
          profile := parse(newValue.value);
        } else {
          profile := None;
        }
      }
    }

    /** After signing in: both values are stored (the profile encoded) and taken into the state. */
    method SaveCredentials(newToken: string, newProfile: Profile, stringify: Profile -> string)
      modifies this
      ensures storage == old(storage)[TokenKey := newToken][ProfileKey := stringify(newProfile)]
      ensures token == Some(newToken) && profile == Some(newProfile)
      ensures formIsDirty == old(formIsDirty) && authHeader == old(authHeader) && pushes == old(pushes)
    {
      storage := storage[TokenKey := newToken];
      storage := storage[ProfileKey := stringify(newProfile)];
      token := Some(newToken);
      profile := Some(newProfile);
    }

    method SaveFormStatus(isDirty: bool)
      modifies this
      ensures formIsDirty == isDirty
      ensures storage == old(storage) && token == old(token) && profile == old(profile)
      ensures authHeader == old(authHeader) && pushes == old(pushes)
    {
      formIsDirty := isDirty;
    }

    /** Both keys are removed, the header dropped, the state cleared, and the user sent to '/'. */
    method Logout()
      modifies this
      ensures storage == old(storage) - {TokenKey, ProfileKey}
      ensures token.None? && profile.None? && !authHeader
      ensures pushes == old(pushes) + ["/"]
      ensures formIsDirty == old(formIsDirty)
    {
      storage := storage - {TokenKey};
      storage := storage - {ProfileKey};
      authHeader := false;
      token := None;
      profile := None;
      pushes := pushes + ["/"];
    }

    /**
      A session survives a reload: after saving a non-empty token and a profile whose
      encoding parses back to it, mounting again restores both and does not redirect;
      the user is then authenticated, and an administrator exactly for the two admin roles.
    */
    method SaveThenReload(newToken: string, newProfile: Profile,
                          stringify: Profile -> string, parse: string -> Option<Profile>)
      requires newToken != "" && parse(stringify(newProfile)) == Some(newProfile)
      modifies this
      ensures token == Some(newToken) && profile == Some(newProfile) && pushes == old(pushes)
      ensures IsAuthenticated(token)
      ensures IsAdmin(profile) <==> newProfile.role == "admin" || newProfile.role == "subadmin"
    {
      SaveCredentials(newToken, newProfile, stringify);
      Mount(parse);
    }

    /**
      Logging out ends the session for good: the state is cleared, and a later mount
      finds no token, redirects again and keeps the profile cleared.
    */
    method LogoutThenReload(parse: string -> Option<Profile>)
      modifies this
      ensures !IsAuthenticated(token) && !IsAdmin(profile)
      ensures TokenKey !in storage && ProfileKey !in storage
      ensures pushes == old(pushes) + ["/", "/"]
    {
      Logout();
      Mount(parse);
    }
  }
}
