/**
 * Discord account data as the settings screen holds it: the `/users/@me`
 * response, when it counts as empty, the avatar URL built from it, the map
 * it is saved to across recompositions, and the login page's request
 * filter that picks up the authorization token.
 */
module DiscordLogin {
  import opened Wrappers
  import Text
  import Seqs

  const Site: string := "https://discord.com/"
  const LoginUrl: string := Site + "login"
  const ApiUrl: string := Site + "api/"
  const DefaultAvatar: string := Site + "assets/1f0bfc0865d324c2587920a7d80c609b.png"
  const AvatarPrefix: string := "https://cdn.discordapp.com/avatars/"
  const AvatarSuffix: string := ".webp"

  datatype Error = IllegalStateException

  /**
   * `DiscordMeResponse`: six constructor fields, and the `token` property set
   * after decoding, which the data class's equality does not compare.
   */
  datatype MeResponse = MeResponse(
    id: Option<string>,
    username: Option<string>,
    avatar: Option<string>,
    discriminator: Option<string>,
    bannerColor: Option<string>,
    bio: Option<string>,
    token: Option<string>)

  /** `DiscordMeResponse.EMPTY` */
  const Empty: MeResponse := MeResponse(None, None, None, None, None, None, None)

  /** The data class's `==`: the constructor fields only. */
  predicate SameData(a: MeResponse, b: MeResponse)
  {
    a.id == b.id && a.username == b.username && a.avatar == b.avatar
    && a.discriminator == b.discriminator && a.bannerColor == b.bannerColor && a.bio == b.bio
  }

  /** `isEmpty`: `this == EMPTY`. */
  predicate IsEmpty(r: MeResponse)
  {
    SameData(r, Empty)
  }

  /** A response is empty exactly when its six fields are all null, whatever its token. */
  lemma IsEmptyMeaning(r: MeResponse, token: Option<string>)
    ensures IsEmpty(r) <==> (r.id.None? && r.username.None? && r.avatar.None?
                             && r.discriminator.None? && r.bannerColor.None? && r.bio.None?)
    ensures IsEmpty(r.(token := token)) == IsEmpty(r)
  {
  }

  /** `getAvatarUrl`: checks non-empty and an id, then the CDN avatar or the default one. */
  function AvatarUrl(r: MeResponse): Result<string, Error>
  {
    if IsEmpty(r) || r.id.None? then Failure(IllegalStateException)
    else if r.avatar.Some? then Success(AvatarPrefix + r.id.value + "/" + r.avatar.value + AvatarSuffix)
    else Success(DefaultAvatar)
  }

  /** Reads the id and avatar hash back out of a CDN avatar URL. */
  function ParseAvatarUrl(url: string): Option<(string, string)>
  {
    if !Text.StartsWith(url, AvatarPrefix) || !Text.EndsWith(url, AvatarSuffix)
      || |url| < |AvatarPrefix| + |AvatarSuffix| then None
    else
      var path := url[|AvatarPrefix|..|url| - |AvatarSuffix|];
      var slash := Seqs.IndexOf(path, '/');
      if slash < 0 then None else Some((path[..slash], path[slash + 1..]))
  }

  /** A CDN avatar URL reads back the id (when it holds no '/') and the avatar hash it was built from. */
  lemma ParseBuiltAvatarUrl(id: string, avatar: string)
    requires '/' !in id
    ensures ParseAvatarUrl(AvatarPrefix + id + "/" + avatar + AvatarSuffix) == Some((id, avatar))
  {
    var url := AvatarPrefix + id + "/" + avatar + AvatarSuffix;
    assert url[..|AvatarPrefix|] == AvatarPrefix;
    assert url[|url| - |AvatarSuffix|..] == AvatarSuffix;
    var path := url[|AvatarPrefix|..|url| - |AvatarSuffix|];
    assert path == id + "/" + avatar;
    assert path[|id|] == '/';
    forall j | 0 <= j < |id| ensures path[j] != '/' {
      assert path[j] == id[j];
    }
    assert Seqs.IndexOf(path, '/') == |id|;
    assert path[..|id|] == id && path[|id| + 1..] == avatar;
  }

  /**
   * An avatar URL is built only for a non-empty response with an id; with an
   * avatar it is a CDN URL from which the id (when it holds no '/') and the
   * avatar hash read back, and without one it is the default avatar, which
   * is no CDN URL.
   */
  lemma AvatarUrlMeaning(r: MeResponse)
    ensures AvatarUrl(r).Success? <==> !IsEmpty(r) && r.id.Some?
    ensures AvatarUrl(r).Success? && r.avatar.None? ==> AvatarUrl(r).value == DefaultAvatar
    ensures AvatarUrl(r).Success? && r.avatar.Some? && '/' !in r.id.value ==>
      ParseAvatarUrl(AvatarUrl(r).value) == Some((r.id.value, r.avatar.value))
    ensures ParseAvatarUrl(DefaultAvatar) == None
  {
    if AvatarUrl(r).Success? && r.avatar.Some? && '/' !in r.id.value {
      ParseBuiltAvatarUrl(r.id.value, r.avatar.value);
    }
    assert DefaultAvatar[..|AvatarPrefix|] != AvatarPrefix by {
      assert DefaultAvatar[8] == Site[8] == 'd';
      assert AvatarPrefix[8] == 'c';
    }
  }

  /** The saver's `save`: nothing for an empty response, else the six fields and the token by name. */
  function Save(r: MeResponse): map<string, Option<string>>
  {
    if IsEmpty(r) then map[]
    else map["id" := r.id, "username" := r.username, "avatar" := r.avatar, "discriminator" := r.discriminator,
             "banner_color" := r.bannerColor, "bio" := r.bio, "token" := r.token]
  }

  function Lookup(m: map<string, Option<string>>, key: string): Option<string>
  {
    if key in m then m[key] else None
  }

  /** The saver's `restore`: each field from its name (absent reads as null), then the token. */
  function Restore(m: map<string, Option<string>>): MeResponse
  {
    MeResponse(Lookup(m, "id"), Lookup(m, "username"), Lookup(m, "avatar"), Lookup(m, "discriminator"),
      Lookup(m, "banner_color"), Lookup(m, "bio"), Lookup(m, "token"))
  }

  /**
   * Saving then restoring gives back a non-empty response exactly, and an
   * empty one as `EMPTY`: its token is not kept. A saved map is empty or
   * holds exactly the seven names.
   */
  lemma SaveRestore(r: MeResponse)
    ensures !IsEmpty(r) ==> Restore(Save(r)) == r
    ensures IsEmpty(r) ==> Restore(Save(r)) == Empty
    ensures Save(r).Keys == if IsEmpty(r) then {} else {"id", "username", "avatar", "discriminator", "banner_color", "bio", "token"}
  {
  }

  /**
   * The login page's request callback: a request under the API URL that
   * carries an `Authorization` header finishes the login with that header;
   * any other request is ignored.
   */
  function LoginToken(url: string, headers: map<string, string>): Option<string>
  {
    if Text.StartsWith(url, ApiUrl) && "Authorization" in headers then Some(headers["Authorization"]) else None
  }

  /** A token is taken exactly from an API request with an `Authorization` header, never from the login page itself. */
  lemma LoginTokenMeaning(url: string, headers: map<string, string>)
    ensures LoginToken(url, headers).Some? <==> Text.StartsWith(url, ApiUrl) && "Authorization" in headers
    ensures LoginToken(url, headers).Some? ==> LoginToken(url, headers).value == headers["Authorization"]
    ensures LoginToken(LoginUrl, headers).None?
  {
    assert LoginUrl[..|ApiUrl|] != ApiUrl by {
      assert LoginUrl[20] == 'l';
      assert ApiUrl[20] == 'a';
    }
  }
}
