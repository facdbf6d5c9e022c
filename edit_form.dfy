/**
 * The profile edit form of src/components/profile/EditForm.tsx: default
 * values from the user, the field rules, the multipart body, and the submit
 * sequence (stored token, decode, request, reply) with its `isLoading` flag.
 */
module EditForm {
  import opened Common
  import opened FormRules
  import opened Http
  import opened Storage
  import TokenSession

  const UsernameRequired := "Le nom est requis"
  const UsernameTooShort := "Le nom doit contenir au moins 2 caractères"
  const EmailRequired := "L'email est requis"
  const EmailInvalid := "Adresse email invalide"
  const BioTooLong := "La bio ne doit pas dépasser 500 caractères"
  const ImageUrlInvalid := "URL invalide"

  const MinUsernameLength := 2
  const MaxBioLength := 500

  const TokenMissing := "Token d'authentification non trouvé"
  const UpdateFailedDefault := "Erreur lors de la mise à jour du profil"

  /** The `user` prop: every field optional. */
  datatype ProfileUser = ProfileUser(username: Option<string>, email: Option<string>, bio: Option<string>, image: Option<string>)

  datatype EditFormData = EditFormData(username: string, email: string, bio: string, image: string)

  /**
   * `user?.field || ''` for each field: a present field is kept verbatim, and
   * a form field is blank exactly when the user, or that field of it, is
   * missing or empty.
   */
  function DefaultValues(user: Option<ProfileUser>): (d: EditFormData)
    ensures user.Some? && user.value.username.Some? ==> d.username == user.value.username.value
    ensures user.Some? && user.value.email.Some? ==> d.email == user.value.email.value
    ensures user.Some? && user.value.bio.Some? ==> d.bio == user.value.bio.value
    ensures user.Some? && user.value.image.Some? ==> d.image == user.value.image.value
    ensures d.username == "" <==> user.None? || user.value.username.None? || user.value.username.value == ""
    ensures d.email == "" <==> user.None? || user.value.email.None? || user.value.email.value == ""
    ensures d.bio == "" <==> user.None? || user.value.bio.None? || user.value.bio.value == ""
    ensures d.image == "" <==> user.None? || user.value.image.None? || user.value.image.value == ""
  {
    match user
    case None => EditFormData("", "", "", "")
    case Some(u) => EditFormData(u.username.GetOr(""), u.email.GetOr(""), u.bio.GetOr(""), u.image.GetOr(""))
  }

  function UsernameError(v: string): (e: Option<string>)
    ensures e.None? <==> Utf16Length(v) >= MinUsernameLength
    ensures e == Some(UsernameRequired) <==> v == ""
    ensures e == Some(UsernameTooShort) <==> v != "" && Utf16Length(v) < MinUsernameLength
  {
    RequiredMinLength(v, MinUsernameLength, UsernameRequired, UsernameTooShort)
  }

  function EmailError(v: string): (e: Option<string>)
    ensures e.None? <==> v != "" && EmailPattern(v)
    ensures e == Some(EmailRequired) <==> v == ""
    ensures e == Some(EmailInvalid) <==> v != "" && !EmailPattern(v)
  {
    RequiredEmail(v, EmailRequired, EmailInvalid)
  }

  /** The bio is optional and at most 500 code units long. */
  function BioError(v: string): (e: Option<string>)
    ensures e.None? <==> Utf16Length(v) <= MaxBioLength
    ensures e.Some? ==> e.value == BioTooLong
  {
    if v != "" && Utf16Length(v) > MaxBioLength then Some(BioTooLong) else None
  }

  /** The image URL is optional; a non-empty one must match the URL pattern. */
  function ImageError(v: string): (e: Option<string>)
    ensures e.None? <==> v == "" || ImageUrlPattern(v)
    ensures e.Some? ==> e.value == ImageUrlInvalid
  {
    if v != "" && !ImageUrlPattern(v) then Some(ImageUrlInvalid) else None
  }

  predicate FormValid(d: EditFormData) {
    && UsernameError(d.username).None?
    && EmailError(d.email).None?
    && BioError(d.bio).None?
    && ImageError(d.image).None?
  }

  /** The defaults of a user with no fields are rejected: the name is required. */
  lemma BlankDefaultsAreInvalid()
    ensures !FormValid(DefaultValues(None))
    ensures UsernameError(DefaultValues(None).username) == Some(UsernameRequired)
  {
  }

  /**
   * The defaults pass the rules exactly when the user has a valid name and
   * email, and its bio and image are missing or valid: a missing optional
   * field becomes "", which the bio and image rules accept.
   */
  lemma DefaultsValidIff(u: ProfileUser)
    ensures FormValid(DefaultValues(Some(u))) <==>
              && u.username.Some? && UsernameError(u.username.value).None?
              && u.email.Some? && EmailError(u.email.value).None?
              && (u.bio.None? || BioError(u.bio.value).None?)
              && (u.image.None? || ImageError(u.image.value).None?)
  {
  }

  /** One `formData.append(name, value)`. */
  datatype Part = Part(name: string, value: string)

  /** username, email and bio in that order, then image only when it is non-empty. */
  predicate IsMultipartOf(parts: seq<Part>, d: EditFormData) {
    && |parts| == (if d.image != "" then 4 else 3)
    && parts[0] == Part("username", d.username)
    && parts[1] == Part("email", d.email)
    && parts[2] == Part("bio", d.bio)
    && (d.image != "" ==> parts[3] == Part("image", d.image))
  }

  function Names(parts: seq<Part>): seq<string> {
    seq(|parts|, i requires 0 <= i < |parts| => parts[i].name)
  }

  /** The multipart body is fully determined by the form, and names its fields in a fixed order. */
  lemma MultipartIsDetermined(p: seq<Part>, q: seq<Part>, d: EditFormData)
    requires IsMultipartOf(p, d) && IsMultipartOf(q, d)
    ensures p == q
    ensures Names(p) == ["username", "email", "bio"] + (if d.image != "" then ["image"] else [])
  {
    if d.image != "" {
      assert p == [p[0], p[1], p[2], p[3]];
      assert q == [q[0], q[1], q[2], q[3]];
    } else {
      assert p == [p[0], p[1], p[2]];
      assert q == [q[0], q[1], q[2]];
    }
  }

  method BuildFormData(d: EditFormData) returns (parts: seq<Part>)
    ensures IsMultipartOf(parts, d)
  {
    parts := [];
    parts := parts + [Part("username", d.username)];
    parts := parts + [Part("email", d.email)];
    parts := parts + [Part("bio", d.bio)];
    if d.image != "" {
      parts := parts + [Part("image", d.image)];
    }
  }

  /** The PUT the form sends: the bearer token and the multipart body. */
  datatype UpdateRequest = UpdateRequest(bearer: string, parts: seq<Part>)

  /**
   * What the error alert reports: a message the form itself throws, or the
   * message of an error raised by a library or the runtime.
   */
  datatype FailReason =
    | Message(text: string)
    | StorageError
    | TokenDecodeError
    | NetworkError
    | ReplyNotJson
    | NullReplyAccess

  datatype UpdateOutcome = NotSubmitted | Updated | Failed(reason: FailReason)

  /** The token the form reads, when the store holds a truthy one. */
  function StoredToken(entries: map<string, string>): Option<string> {
    if TokenSession.HasToken(entries) then Some(entries[TokenSession.TokenKey]) else None
  }

  /**
   * What one onSubmit run reports, given the store it reads, the decoder and
   * the reply the fetch settles with. A rejected read of the store
   * (StorageError) ends a run before any request.
   */
  predicate SubmitResult(d: EditFormData, entries: map<string, string>, decode: string -> Option<TokenSession.Claims>,
                         reply: Fetched, o: UpdateOutcome, request: Option<UpdateRequest>)
  {
    && (o.Updated? || o.Failed?)
    // before the request: the stored token and its decoding
    && (o == Failed(StorageError) ==> request.None?)
    && (StoredToken(entries).None? ==>
          request.None? && (o == Failed(Message(TokenMissing)) || o == Failed(StorageError)))
    && (StoredToken(entries).Some? && decode(StoredToken(entries).value).None? ==>
          request.None? && (o == Failed(TokenDecodeError) || o == Failed(StorageError)))
    && (StoredToken(entries).Some? && decode(StoredToken(entries).value).Some? ==>
          request.Some? || o == Failed(StorageError))
    && (request.None? && o != Failed(StorageError) ==>
          (StoredToken(entries).None? <==> o == Failed(Message(TokenMissing))))
    && (request.None? ==> o.Failed?)
    // the request: the stored token as bearer, and the multipart body of the form
    && (request.Some? ==> Some(request.value.bearer) == StoredToken(entries))
    && (request.Some? ==> decode(request.value.bearer).Some? && IsMultipartOf(request.value.parts, d))
    // the reply
    && (request.Some? ==> (o == Updated <==> reply.Received? && reply.ok && reply.reply.Parsed?))
    && (request.Some? && reply.FetchRejected? ==> o == Failed(NetworkError))
    && (request.Some? && reply.Received? && reply.reply.Unparsable? ==> o == Failed(ReplyNotJson))
    && (request.Some? && reply.Received? && !reply.ok && reply.reply.Parsed? && reply.reply.body.NullBody? ==>
          o == Failed(NullReplyAccess))
    && (request.Some? && reply.Received? && !reply.ok && reply.reply.Parsed? && reply.reply.body.ObjectBody? ==>
          o == Failed(Message(OrElse(reply.reply.body.message, UpdateFailedDefault))))
    && (o.Failed? && o.reason.Message? ==> o.reason.text != "")
  }

  class ProfileEditor {
    var isLoading: bool

    constructor ()
      ensures !isLoading
    {
      isLoading := false;
    }

    /**
     * onSubmit: read the stored token (none: fail before any request), decode
     * it, send the multipart body with the token, and judge the reply by
     * `response.ok`. `finally` clears isLoading on every path.
     */
    method OnSubmit(d: EditFormData, storage: KeyValueStore, decode: string -> Option<TokenSession.Claims>, reply: Fetched)
      returns (o: UpdateOutcome, request: Option<UpdateRequest>)
      modifies this
      ensures !isLoading
      ensures SubmitResult(d, storage.entries, decode, reply, o, request)
    {
      isLoading := true;
      request := None;
      var stored := storage.GetItem(TokenSession.TokenKey);
      if stored.ReadRejected? {
        o := Failed(StorageError);
        isLoading := false;
        return;
      }
      if stored.item.None? || stored.item.value == "" {
        o := Failed(Message(TokenMissing));
        isLoading := false;
        return;
      }
      var token := stored.item.value;
      if decode(token).None? {
        o := Failed(TokenDecodeError);
        isLoading := false;
        return;
      }
      var parts := BuildFormData(d);
      request := Some(UpdateRequest(token, parts));
      match reply {
        case FetchRejected =>
          o := Failed(NetworkError);
        case Received(ok, Unparsable) =>
          o := Failed(ReplyNotJson);
        case Received(ok, Parsed(json)) =>
          if ok {
            o := Updated;
          } else if json.NullBody? {
            // reading `json.message` of null throws a TypeError
            o := Failed(NullReplyAccess);
          } else {
            o := Failed(Message(OrElse(json.message, UpdateFailedDefault)));
          }
      }
      isLoading := false;
    }

    /** `handleSubmit(onSubmit)`: an invalid form is not submitted and the flag is left alone. */
    method HandleSubmit(d: EditFormData, storage: KeyValueStore, decode: string -> Option<TokenSession.Claims>, reply: Fetched)
      returns (o: UpdateOutcome, request: Option<UpdateRequest>)
      modifies this
      ensures o == NotSubmitted <==> !FormValid(d)
      ensures !FormValid(d) ==> request.None? && isLoading == old(isLoading)
      ensures FormValid(d) ==> !isLoading && SubmitResult(d, storage.entries, decode, reply, o, request)
    {
      if !FormValid(d) {
        return NotSubmitted, None;
      }
      o, request := OnSubmit(d, storage, decode, reply);
    }
  }
}
