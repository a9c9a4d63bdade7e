/** Classification of image failures: the policy table, structured codes, and upstream HTTP errors. */
module ImageFailure {
  import opened Sequences

  // ---- Codes and words ----

  datatype Code =
    | UpstreamError | InternalError | UpstreamUnavailable | ConnectionFailed | ConnectionTimeout
    | UpstreamRateLimited | PollTimeout | StreamTimeout | StreamInterrupted | ToolError
    | ImageQuotaExhausted | FileUploadThrottled | AuthInvalid | ContentPolicyViolation
    | InvalidImageInput | UpstreamTextReply | NoImageGenerated | UnsupportedModel
    | DownloadFailed | TaskInterrupted | NoAvailableAccount | InsufficientQuota

  /** The other names that upstream uses for some codes. */
  datatype Alias =
    | AConnectionFailed | AConnectionTimeout | ConversationNotReady | InvalidAccessToken | ModerationBlocked
    | QuotaExhausted | RateLimitExceeded | SafetyBlocked | TokenInvalid | TokenInvalidated | TokenRevoked
    | UnsupportedImageModel | UpstreamTimeout

  /** A normalised text found in an upstream payload: a code, an alias, one of the words that only mark a
      rate limit ("429", "limited", …), or anything else. */
  datatype Word = Known(code: Code) | Other(alias: Alias) | LimitWord | Unknown(text: string)

  function Target(a: Alias): Code {
    match a
    case AConnectionFailed => ConnectionFailed
    case AConnectionTimeout => ConnectionTimeout
    case ConversationNotReady => UpstreamUnavailable
    case InvalidAccessToken => AuthInvalid
    case ModerationBlocked => ContentPolicyViolation
    case QuotaExhausted => ImageQuotaExhausted
    case RateLimitExceeded => UpstreamRateLimited
    case SafetyBlocked => ContentPolicyViolation
    case TokenInvalid => AuthInvalid
    case TokenInvalidated => AuthInvalid
    case TokenRevoked => AuthInvalid
    case UnsupportedImageModel => UnsupportedModel
    case UpstreamTimeout => PollTimeout
  }

  function Resolved(w: Word): Option<Code> {
    match w
    case Known(c) => Some(c)
    case Other(a) => Some(Target(a))
    case _ => None
  }

  predicate IsLimitWord(w: Word) {
    w in {LimitWord, Known(FileUploadThrottled), Known(ImageQuotaExhausted), Known(InsufficientQuota),
          Known(UpstreamRateLimited), Other(QuotaExhausted), Other(RateLimitExceeded)}
  }

  const QUOTA: set<Word> := {Known(InsufficientQuota), Other(QuotaExhausted), Known(ImageQuotaExhausted)}
  const AUTH: set<Word> := {Other(InvalidAccessToken), Other(TokenInvalid), Other(TokenInvalidated), Other(TokenRevoked)}
  const POLICY: set<Word> := {Known(ContentPolicyViolation), Other(ModerationBlocked), Other(SafetyBlocked)}

  // ---- Policies ----

  datatype Scope = Transient | Internal | Account | Request | Delivery
  datatype Capability = ImageGeneration | FileUpload | Auth
  datatype ErrorType = ServerError | RateLimitError | QuotaError | AuthenticationError | InvalidRequestError
  datatype Policy = Policy(scope: Scope, capability: Option<Capability>, retryable: bool, status: int, errorType: ErrorType)

  function PolicyOf(c: Code): Policy {
    match c
    case UpstreamError => Policy(Transient, None, false, 502, ServerError)
    case InternalError => Policy(Internal, None, false, 500, ServerError)
    case UpstreamUnavailable => Policy(Transient, None, true, 502, ServerError)
    case ConnectionFailed => Policy(Transient, None, true, 502, ServerError)
    case ConnectionTimeout => Policy(Transient, None, true, 504, ServerError)
    case UpstreamRateLimited => Policy(Transient, Some(ImageGeneration), false, 429, RateLimitError)
    case PollTimeout => Policy(Transient, Some(ImageGeneration), false, 502, ServerError)
    case StreamTimeout => Policy(Transient, Some(ImageGeneration), false, 502, ServerError)
    case StreamInterrupted => Policy(Transient, Some(ImageGeneration), false, 502, ServerError)
    case ToolError => Policy(Account, Some(ImageGeneration), false, 502, ServerError)
    case ImageQuotaExhausted => Policy(Account, Some(ImageGeneration), false, 429, QuotaError)
    case FileUploadThrottled => Policy(Account, Some(FileUpload), true, 429, RateLimitError)
    case AuthInvalid => Policy(Account, Some(Auth), false, 401, AuthenticationError)
    case ContentPolicyViolation => Policy(Request, None, false, 400, InvalidRequestError)
    case InvalidImageInput => Policy(Request, None, false, 400, InvalidRequestError)
    case UpstreamTextReply => Policy(Request, None, false, 400, InvalidRequestError)
    case NoImageGenerated => Policy(Request, None, false, 400, InvalidRequestError)
    case UnsupportedModel => Policy(Request, None, false, 400, InvalidRequestError)
    case DownloadFailed => Policy(Delivery, None, false, 502, ServerError)
    case TaskInterrupted => Policy(Request, None, false, 503, ServerError)
    case NoAvailableAccount => Policy(Transient, None, false, 503, ServerError)
    case InsufficientQuota => Policy(Account, Some(ImageGeneration), false, 429, QuotaError)
  }

  /** A failure. Raw detail is compared as a text; the empty text stands for none. */
  datatype Failure = Failure(code: Code, policy: Policy, retryAfter: Option<int>, raw: string, public: string) {
    /** A text outcome neither switches the account nor verifies it. */
    predicate IsText() {
      policy.status == 400
    }
  }

  function FailureOf(c: Code, retryAfter: Option<int>, raw: string): Failure {
    Failure(c, PolicyOf(c), retryAfter, raw, "")
  }

  /** Whose fault a failure is. */
  lemma ScopesOfCodes(c: Code)
    ensures PolicyOf(c).scope == Account <==>
              c in {ToolError, ImageQuotaExhausted, InsufficientQuota, FileUploadThrottled, AuthInvalid}
    ensures PolicyOf(c).scope == Request <==>
              c in {ContentPolicyViolation, InvalidImageInput, UpstreamTextReply, NoImageGenerated, UnsupportedModel, TaskInterrupted}
    ensures PolicyOf(c).scope == Delivery <==> c == DownloadFailed
    ensures PolicyOf(c).scope == Internal <==> c == InternalError
  {
  }

  /** How a failure is reported: a text reply and a bad input are bad requests, exhausted quotas and limits are too
      many requests, and the error type goes with the status. */
  lemma StatusesOfCodes(c: Code)
    ensures PolicyOf(c).status == 400 <==>
              c in {ContentPolicyViolation, InvalidImageInput, UpstreamTextReply, NoImageGenerated, UnsupportedModel}
    ensures PolicyOf(c).status == 429 <==> c in {UpstreamRateLimited, FileUploadThrottled, ImageQuotaExhausted, InsufficientQuota}
    ensures PolicyOf(c).status == 401 <==> c == AuthInvalid
    ensures PolicyOf(c).status == 500 <==> c == InternalError
    ensures PolicyOf(c).status == 503 <==> c in {TaskInterrupted, NoAvailableAccount}
    ensures PolicyOf(c).status == 504 <==> c == ConnectionTimeout
    ensures PolicyOf(c).status in {400, 401, 429, 500, 502, 503, 504}
    ensures PolicyOf(c).errorType ==
            if PolicyOf(c).status == 400 then InvalidRequestError else if PolicyOf(c).status == 401 then AuthenticationError
            else if PolicyOf(c).status != 429 then ServerError
            else if c in {ImageQuotaExhausted, InsufficientQuota} then QuotaError else RateLimitError
  {
  }

  /** Which failures may be tried again at once, and what the account or the upstream could not do. */
  lemma CapabilitiesOfCodes(c: Code)
    ensures PolicyOf(c).retryable <==> c in {UpstreamUnavailable, ConnectionFailed, ConnectionTimeout, FileUploadThrottled}
    ensures PolicyOf(c).capability == Some(Auth) <==> c == AuthInvalid
    ensures PolicyOf(c).capability == Some(FileUpload) <==> c == FileUploadThrottled
    ensures PolicyOf(c).capability == Some(ImageGeneration) <==>
              c in {UpstreamRateLimited, PollTimeout, StreamTimeout, StreamInterrupted, ToolError, ImageQuotaExhausted, InsufficientQuota}
  {
  }

  /** Which other names stand for a code. */
  lemma AliasesOfCodes(a: Alias)
    ensures Target(a) == AuthInvalid <==> a in {InvalidAccessToken, TokenInvalid, TokenInvalidated, TokenRevoked}
    ensures Target(a) == ContentPolicyViolation <==> a in {ModerationBlocked, SafetyBlocked}
    ensures Target(a) == ImageQuotaExhausted <==> a == QuotaExhausted
    ensures Target(a) == UpstreamRateLimited <==> a == RateLimitExceeded
    ensures Target(a) == PollTimeout <==> a == UpstreamTimeout
    ensures Target(a) == UpstreamUnavailable <==> a == ConversationNotReady
    ensures Target(a) == UnsupportedModel <==> a == UnsupportedImageModel
    ensures Target(a) == ConnectionFailed <==> a == AConnectionFailed
    ensures Target(a) == ConnectionTimeout <==> a == AConnectionTimeout
  {
  }

  // ---- Priorities ----

  function Priority(c: Code): nat {
    match c
    case AuthInvalid => 8
    case ImageQuotaExhausted => 7
    case InsufficientQuota => 7
    case FileUploadThrottled => 6
    case UpstreamRateLimited => 6
    case DownloadFailed => 5
    case ContentPolicyViolation => 4
    case InvalidImageInput => 4
    case NoImageGenerated => 4
    case UnsupportedModel => 4
    case ToolError => 3
    case UpstreamTextReply => 2
    case PollTimeout => 1
    case StreamInterrupted => 1
    case StreamTimeout => 1
    case TaskInterrupted => 1
    case ConnectionFailed => 1
    case ConnectionTimeout => 1
    case UpstreamUnavailable => 1
    case _ => 0
  }

  function Name(c: Code): string {
    match c
    case AuthInvalid => "auth_invalid"
    case ContentPolicyViolation => "content_policy_violation"
    case FileUploadThrottled => "file_upload_throttled"
    case DownloadFailed => "image_download_failed"
    case PollTimeout => "image_poll_timeout"
    case ImageQuotaExhausted => "image_quota_exhausted"
    case StreamInterrupted => "image_stream_interrupted"
    case StreamTimeout => "image_stream_timeout"
    case ToolError => "image_tool_error"
    case InsufficientQuota => "insufficient_quota"
    case InternalError => "internal_error"
    case InvalidImageInput => "invalid_image_input"
    case NoAvailableAccount => "no_available_account"
    case NoImageGenerated => "no_image_generated"
    case TaskInterrupted => "task_interrupted"
    case UnsupportedModel => "unsupported_model"
    case ConnectionFailed => "upstream_connection_failed"
    case ConnectionTimeout => "upstream_connection_timeout"
    case UpstreamError => "upstream_error"
    case UpstreamRateLimited => "upstream_rate_limited"
    case UpstreamTextReply => "upstream_text_reply"
    case UpstreamUnavailable => "upstream_unavailable"
  }

  /** Place of a code in the alphabetical order of the names. */
  function Place(c: Code): nat {
    match c
    case AuthInvalid => 0
    case ContentPolicyViolation => 1
    case FileUploadThrottled => 2
    case DownloadFailed => 3
    case PollTimeout => 4
    case ImageQuotaExhausted => 5
    case StreamInterrupted => 6
    case StreamTimeout => 7
    case ToolError => 8
    case InsufficientQuota => 9
    case InternalError => 10
    case InvalidImageInput => 11
    case NoAvailableAccount => 12
    case NoImageGenerated => 13
    case TaskInterrupted => 14
    case UnsupportedModel => 15
    case ConnectionFailed => 16
    case ConnectionTimeout => 17
    case UpstreamError => 18
    case UpstreamRateLimited => 19
    case UpstreamTextReply => 20
    case UpstreamUnavailable => 21
  }

  /** The place of the first character in which a name differs from the next one. */
  function FirstDifference(c: Code): nat {
    match c
    case AuthInvalid => 0
    case ContentPolicyViolation => 0
    case FileUploadThrottled => 0
    case DownloadFailed => 6
    case PollTimeout => 6
    case ImageQuotaExhausted => 6
    case StreamInterrupted => 13
    case StreamTimeout => 6
    case ToolError => 1
    case InsufficientQuota => 2
    case InternalError => 2
    case InvalidImageInput => 0
    case NoAvailableAccount => 3
    case NoImageGenerated => 0
    case TaskInterrupted => 0
    case UnsupportedModel => 1
    case ConnectionFailed => 20
    case ConnectionTimeout => 9
    case UpstreamError => 9
    case UpstreamRateLimited => 9
    case UpstreamTextReply => 9
    case UpstreamUnavailable => 0
  }

  /** `a` is before `b`: they agree up to the place `k` and differ there. */
  predicate IsBefore(a: string, b: string, k: nat) {
    k < |a| && k < |b| && a[..k] == b[..k] && a[k] < b[k]
  }

  lemma LowPlaces(a: Code, b: Code)
    requires Place(b) == Place(a) + 1 && Place(a) < 8
    ensures IsBefore(Name(a), Name(b), FirstDifference(a))
  {
  }

  lemma MiddlePlaces(a: Code, b: Code)
    requires Place(b) == Place(a) + 1 && 8 <= Place(a) < 15
    ensures IsBefore(Name(a), Name(b), FirstDifference(a))
  {
  }

  lemma HighPlaces(a: Code, b: Code)
    requires Place(b) == Place(a) + 1 && 15 <= Place(a)
    ensures IsBefore(Name(a), Name(b), FirstDifference(a))
  {
  }

  /** Places follow the names: each name is before the next one in the order of characters. */
  lemma PlacesAreAlphabetical(a: Code, b: Code)
    requires Place(b) == Place(a) + 1
    ensures IsBefore(Name(a), Name(b), FirstDifference(a))
  {
    if Place(a) < 8 {
      LowPlaces(a, b);
    } else if Place(a) < 15 {
      MiddlePlaces(a, b);
    } else {
      HighPlaces(a, b);
    }
  }

  /** `a` comes after `b` in the order by priority, then name. */
  predicate Beats(a: Code, b: Code) {
    Priority(a) > Priority(b) || (Priority(a) == Priority(b) && Place(a) > Place(b))
  }

  lemma PlacesDiffer(a: Code, b: Code)
    ensures a != b ==> Beats(a, b) || Beats(b, a)
  {
    CodeAt(a);
    CodeAt(b);
  }

  function AtPlace(n: nat): Code {
    if n == 0 then AuthInvalid else if n == 1 then ContentPolicyViolation else if n == 2 then FileUploadThrottled
    else if n == 3 then DownloadFailed else if n == 4 then PollTimeout else if n == 5 then ImageQuotaExhausted
    else if n == 6 then StreamInterrupted else if n == 7 then StreamTimeout else if n == 8 then ToolError
    else if n == 9 then InsufficientQuota else if n == 10 then InternalError else if n == 11 then InvalidImageInput
    else if n == 12 then NoAvailableAccount else if n == 13 then NoImageGenerated else if n == 14 then TaskInterrupted
    else if n == 15 then UnsupportedModel else if n == 16 then ConnectionFailed else if n == 17 then ConnectionTimeout
    else if n == 18 then UpstreamError else if n == 19 then UpstreamRateLimited else if n == 20 then UpstreamTextReply
    else UpstreamUnavailable
  }

  lemma CodeAt(c: Code)
    ensures AtPlace(Place(c)) == c
  {
  }

  ghost predicate IsBest(codes: set<Code>, best: Code) {
    best in codes && forall c :: c in codes ==> !Beats(c, best)
  }

  lemma BeatsIsAnOrder(a: Code, b: Code, c: Code)
    ensures Beats(a, b) && Beats(b, c) ==> Beats(a, c)
    ensures !Beats(a, b) && !Beats(b, c) ==> !Beats(a, c)
    ensures !Beats(a, a) && !(Beats(a, b) && Beats(b, a))
    ensures Beats(b, c) && !Beats(a, c) ==> !Beats(a, b)
  {
  }

  lemma {:induction false} BestExists(codes: set<Code>)
    requires codes != {}
    ensures exists c :: IsBest(codes, c)
    decreases |codes|
  {
    var c :| c in codes;
    if codes == {c} {
      assert IsBest(codes, c);
    } else {
      BestExists(codes - {c});
      var d :| IsBest(codes - {c}, d);
      var best := if Beats(c, d) then c else d;
      forall e | e in codes ensures !Beats(e, best) {
        BeatsIsAnOrder(e, c, d);
      }
      assert IsBest(codes, best);
    }
  }

  lemma BestIsUnique(codes: set<Code>, a: Code, b: Code)
    requires IsBest(codes, a) && IsBest(codes, b)
    ensures a == b
  {
    PlacesDiffer(a, b);
  }

  /** `max(codes, key=(priority, code))`. */
  ghost function Best(codes: set<Code>): (best: Code)
    requires codes != {}
    ensures IsBest(codes, best)
  {
    BestExists(codes);
    var c :| IsBest(codes, c);
    c
  }

  // ---- Structured codes ----

  /** The codes that the words of a payload stand for. */
  function KnownCodes(words: set<Word>): set<Code> {
    (if words * POLICY != {} then {ContentPolicyViolation} else {}) +
    (if words * AUTH != {} then {AuthInvalid} else {}) +
    (if words * QUOTA != {} then {ImageQuotaExhausted} else {}) +
    (set w | w in words && w !in POLICY + AUTH + QUOTA && Resolved(w).Some? :: Resolved(w).value) +
    (if exists w :: w in words && IsLimitWord(w) then {UpstreamRateLimited} else {})
  }

  /** `_classify_structured_failure_codes`. */
  ghost function ClassifyCodes(words: set<Word>, retryAfter: Option<int>, raw: string): Option<Failure> {
    if KnownCodes(words) == {} then None else Some(FailureOf(Best(KnownCodes(words)), retryAfter, raw))
  }

  /** The loop behind `max`: it finds the one best code. */
  method SelectCode(codes: set<Code>) returns (best: Code)
    requires codes != {}
    ensures best == Best(codes)
  {
    var first :| first in codes;
    best := first;
    var todo := codes - {first};
    while todo != {}
      invariant todo <= codes && IsBest(codes - todo, best)
      decreases |todo|
    {
      var c :| c in todo;
      assert codes - (todo - {c}) == codes - todo + {c};
      forall e | e in codes - todo + {c} ensures !Beats(e, if Beats(c, best) then c else best) {
        BeatsIsAnOrder(e, c, best);
      }
      todo := todo - {c};
      if Beats(c, best) {
        best := c;
      }
    }
    assert codes - todo == codes;
    BestIsUnique(codes, best, Best(codes));
  }

  method ClassifyStructured(words: set<Word>, retryAfter: Option<int>, raw: string) returns (failure: Option<Failure>)
    ensures failure == ClassifyCodes(words, retryAfter, raw)
  {
    if KnownCodes(words) == {} {
      return None;
    }
    var code := SelectCode(KnownCodes(words));
    failure := Some(FailureOf(code, retryAfter, raw));
  }

  lemma KnownCodesExact(words: set<Word>)
    ensures KnownCodes(words) == {} <==> forall w :: w in words ==> w.Unknown?
    ensures InsufficientQuota !in KnownCodes(words)
    ensures FileUploadThrottled in KnownCodes(words) <==> Known(FileUploadThrottled) in words
  {
    if forall w :: w in words ==> w.Unknown? {
      assert words * POLICY == {} && words * AUTH == {} && words * QUOTA == {};
    }
    forall w | w in words && !w.Unknown? ensures KnownCodes(words) != {} {
      WordIsKnown(words, w);
    }
  }

  lemma BestIsNotThrottled(words: set<Word>)
    requires KnownCodes(words) != {}
    ensures Best(KnownCodes(words)) != FileUploadThrottled && Best(KnownCodes(words)) != InsufficientQuota
  {
    KnownCodesExact(words);
    if Known(FileUploadThrottled) in words {
      assert IsLimitWord(Known(FileUploadThrottled)) && UpstreamRateLimited in KnownCodes(words);
      assert Beats(UpstreamRateLimited, FileUploadThrottled);
    }
  }

  lemma InvalidAuthWins(words: set<Word>)
    requires words * AUTH != {}
    ensures KnownCodes(words) != {} && Best(KnownCodes(words)) == AuthInvalid
  {
    assert AuthInvalid in KnownCodes(words);
    var best := Best(KnownCodes(words));
    assert best != AuthInvalid ==> Beats(AuthInvalid, best);
  }

  /** What structured codes classify as, for every payload: nothing if and only if no word is known; never
      a throttled upload or an insufficient quota, since the first always stands beside a rate limit that
      is later in the alphabet and the second is folded into an exhausted image quota. */
  lemma ClassifiedCodes(words: set<Word>, retryAfter: Option<int>, raw: string)
    ensures var f := ClassifyCodes(words, retryAfter, raw);
            && (f.None? <==> forall w :: w in words ==> w.Unknown?)
            && (f.Some? ==> f.value.code != FileUploadThrottled && f.value.code != InsufficientQuota)
            && (words * AUTH != {} ==> f.Some? && f.value.code == AuthInvalid)
  {
    KnownCodesExact(words);
    if KnownCodes(words) != {} {
      BestIsNotThrottled(words);
    }
    if words * AUTH != {} {
      InvalidAuthWins(words);
    }
  }

  lemma WordIsKnown(words: set<Word>, w: Word)
    requires w in words && !w.Unknown?
    ensures KnownCodes(words) != {}
  {
    if w in POLICY {
      assert w in words * POLICY;
    } else if w in AUTH {
      assert w in words * AUTH;
    } else if w in QUOTA {
      assert w in words * QUOTA;
    } else if w == LimitWord {
      assert IsLimitWord(w) && UpstreamRateLimited in KnownCodes(words);
    } else {
      assert Resolved(w).value in KnownCodes(words);
    }
  }

  predicate NamesLimit(words: set<Word>) {
    exists w :: w in words && IsLimitWord(w)
  }

  /** Some word stands for the code itself. */
  predicate Names(words: set<Word>, c: Code) {
    exists w :: w in words && Resolved(w) == Some(c)
  }

  /** The three sets of words are exactly those that stand for their code. */
  lemma WordsOfCodes(words: set<Word>)
    ensures words * POLICY != {} <==> Names(words, ContentPolicyViolation)
    ensures words * AUTH != {} || Known(AuthInvalid) in words <==> Names(words, AuthInvalid)
    ensures words * QUOTA != {} <==> Names(words, ImageQuotaExhausted) || Names(words, InsufficientQuota)
    ensures Names(words, UpstreamRateLimited) ==> NamesLimit(words)
  {
    if w :| w in words && Resolved(w) == Some(ContentPolicyViolation) {
      assert w in words * POLICY;
    }
    if w :| w in words * POLICY {
      assert Resolved(w) == Some(ContentPolicyViolation);
    }
    if w :| w in words && Resolved(w) == Some(AuthInvalid) {
      assert w == Known(AuthInvalid) || w in words * AUTH;
    }
    if w :| w in words * AUTH {
      assert Resolved(w) == Some(AuthInvalid);
    }
    if w :| w in words && Resolved(w).Some? && Resolved(w).value in {ImageQuotaExhausted, InsufficientQuota} {
      assert w in words * QUOTA;
    }
    if w :| w in words * QUOTA {
      assert Resolved(w).value in {ImageQuotaExhausted, InsufficientQuota};
    }
    if w :| w in words && Resolved(w) == Some(UpstreamRateLimited) {
      assert IsLimitWord(w);
    }
  }

  /** The codes that are found by their own words, apart from the folded ones. */
  function PlainCodes(words: set<Word>): set<Code> {
    set w | w in words && w !in POLICY + AUTH + QUOTA && Resolved(w).Some? :: Resolved(w).value
  }

  lemma PlainCodesExact(words: set<Word>, c: Code)
    ensures c in PlainCodes(words) ==> Names(words, c) && c !in {ContentPolicyViolation, ImageQuotaExhausted, InsufficientQuota}
    ensures c !in {ContentPolicyViolation, AuthInvalid, ImageQuotaExhausted, InsufficientQuota} && Names(words, c) ==> c in PlainCodes(words)
    ensures Known(AuthInvalid) in words ==> AuthInvalid in PlainCodes(words)
  {
    if c in PlainCodes(words) {
      var w :| w in words && w !in POLICY + AUTH + QUOTA && Resolved(w) == Some(c);
    }
  }

  lemma KnownCodesSplit(words: set<Word>, c: Code)
    ensures c in KnownCodes(words) <==>
            || (c == ContentPolicyViolation && words * POLICY != {})
            || (c == AuthInvalid && words * AUTH != {})
            || (c == ImageQuotaExhausted && words * QUOTA != {})
            || c in PlainCodes(words)
            || (c == UpstreamRateLimited && NamesLimit(words))
  {
  }

  lemma InKnownCodes(words: set<Word>, c: Code)
    ensures c in KnownCodes(words) <==>
            if c == ImageQuotaExhausted then Names(words, c) || Names(words, InsufficientQuota)
            else if c == UpstreamRateLimited then NamesLimit(words)
            else c != InsufficientQuota && Names(words, c)
  {
    KnownCodesSplit(words, c);
    PlainCodesExact(words, c);
    WordsOfCodes(words);
  }

  /** The codes that some word stands for. */
  function NamedCodes(words: set<Word>): (r: set<Code>)
    ensures forall c :: c in r <==> Names(words, c)
  {
    set w | w in words && Resolved(w).Some? :: Resolved(w).value
  }

  /** The code that a payload stands for, by what its words stand for: an invalid credential first, then an
      exhausted quota, any mark of a rate limit, a failed download, the reasons of a bad request from the end of
      the alphabet, a tool error, a text reply; the other codes count less than these. */
  function Ranked(named: set<Code>, limited: bool): Option<Code> {
    if AuthInvalid in named then Some(AuthInvalid)
    else if ImageQuotaExhausted in named || InsufficientQuota in named then Some(ImageQuotaExhausted)
    else if limited then Some(UpstreamRateLimited)
    else if DownloadFailed in named then Some(DownloadFailed)
    else if UnsupportedModel in named then Some(UnsupportedModel)
    else if NoImageGenerated in named then Some(NoImageGenerated)
    else if InvalidImageInput in named then Some(InvalidImageInput)
    else if ContentPolicyViolation in named then Some(ContentPolicyViolation)
    else if ToolError in named then Some(ToolError)
    else if UpstreamTextReply in named then Some(UpstreamTextReply)
    else None
  }

  function RankedCode(words: set<Word>): Option<Code> {
    Ranked(NamedCodes(words), NamesLimit(words))
  }

  lemma RankedIsKnown(words: set<Word>)
    requires RankedCode(words).Some?
    ensures RankedCode(words).value in KnownCodes(words)
  {
    InKnownCodes(words, RankedCode(words).value);
  }

  /** What a known code is named by, without the folded codes. */
  lemma KnownIsNamed(words: set<Word>, c: Code)
    requires c in KnownCodes(words)
    ensures c != InsufficientQuota
    ensures c == ImageQuotaExhausted ==> Names(words, ImageQuotaExhausted) || Names(words, InsufficientQuota)
    ensures c == UpstreamRateLimited || c == FileUploadThrottled ==> NamesLimit(words)
    ensures c !in {ImageQuotaExhausted, UpstreamRateLimited, FileUploadThrottled} ==> Names(words, c)
  {
    InKnownCodes(words, c);
    ThrottledIsLimit(words);
  }

  /** Place of a code in the ranking; a throttled upload counts as the rate limit that it stands beside. */
  function Tier(c: Code): nat {
    match c
    case AuthInvalid => 10
    case ImageQuotaExhausted => 9
    case UpstreamRateLimited => 8
    case FileUploadThrottled => 8
    case DownloadFailed => 7
    case UnsupportedModel => 6
    case NoImageGenerated => 5
    case InvalidImageInput => 4
    case ContentPolicyViolation => 3
    case ToolError => 2
    case UpstreamTextReply => 1
    case _ => 0
  }

  lemma TiersFollowPriority(a: Code, b: Code)
    requires Tier(a) <= Tier(b) && Tier(b) > 0 && a != InsufficientQuota && b != FileUploadThrottled
    ensures !Beats(a, b)
  {
  }

  lemma NoTierIsLow(c: Code)
    requires Tier(c) == 0 && c != InsufficientQuota
    ensures Priority(c) <= 1
  {
  }

  lemma RankedTier(named: set<Code>, limited: bool, c: Code)
    requires c == ImageQuotaExhausted ==> ImageQuotaExhausted in named || InsufficientQuota in named
    requires c == UpstreamRateLimited || c == FileUploadThrottled ==> limited
    requires c !in {ImageQuotaExhausted, UpstreamRateLimited, FileUploadThrottled} ==> c in named
    ensures Tier(c) <= if Ranked(named, limited).Some? then Tier(Ranked(named, limited).value) else 0
    ensures Ranked(named, limited).Some? ==> Tier(Ranked(named, limited).value) > 0 && Ranked(named, limited).value != FileUploadThrottled
  {
  }

  lemma RankedIsHigh(words: set<Word>, c: Code)
    requires c in KnownCodes(words)
    ensures if RankedCode(words).None? then Priority(c) <= 1 else !Beats(c, RankedCode(words).value)
  {
    KnownIsNamed(words, c);
    RankedTier(NamedCodes(words), NamesLimit(words), c);
    if RankedCode(words).Some? {
      TiersFollowPriority(c, RankedCode(words).value);
    } else {
      NoTierIsLow(c);
    }
  }

  lemma ThrottledIsLimit(words: set<Word>)
    ensures Names(words, FileUploadThrottled) ==> NamesLimit(words)
  {
    if w :| w in words && Resolved(w) == Some(FileUploadThrottled) {
      assert IsLimitWord(w);
    }
  }

  /** Which code structured codes classify as, for every payload. */
  lemma StructuredCodeIs(words: set<Word>)
    requires KnownCodes(words) != {}
    ensures var best := Best(KnownCodes(words));
            if RankedCode(words).Some? then best == RankedCode(words).value else Priority(best) <= 1 && Names(words, best)
  {
    var best := Best(KnownCodes(words));
    RankedIsHigh(words, best);
    if RankedCode(words).Some? {
      RankedIsKnown(words);
      PlacesDiffer(best, RankedCode(words).value);
    } else {
      InKnownCodes(words, best);
    }
  }

  // ---- Codes inside a payload ----

  datatype Json = Scalar | Text(word: Word) | List(items: seq<Json>) | Object(fields: seq<Field>)
  datatype Field = Field(key: string, value: Json)

  const CODE_KEYS: set<string> := {"code", "error_code", "failure_code", "type", "error"}

  predicate IsContainer(j: Json) {
    j.List? || j.Object?
  }

  /** The words that an object holds under a code key. */
  function OwnWords(fields: seq<Field>): set<Word> {
    set f | f in fields && f.key in CODE_KEYS && f.value.Text? && f.value.word != Unknown("") :: f.value.word
  }

  function Values(fields: seq<Field>): (r: seq<Json>)
    ensures |r| == |fields| && forall i :: 0 <= i < |r| ==> r[i] == fields[i].value
  {
    seq(|fields|, i requires 0 <= i < |fields| => fields[i].value)
  }

  ghost function Size(j: Json): nat
    decreases j, 1
  {
    match j
    case List(items) => 1 + SizeAll(items)
    case Object(fields) => 1 + SizeFields(fields)
    case _ => 1
  }

  ghost function SizeAll(js: seq<Json>): nat
    decreases js, 0
  {
    if js == [] then 0 else SizeAll(js[1..]) + Size(js[0])
  }

  ghost function SizeFields(fields: seq<Field>): nat
    decreases fields, 0
  {
    if fields == [] then 0 else SizeFields(fields[1..]) + Size(fields[0].value)
  }

  /** All words under code keys, anywhere inside a value. */
  ghost function Words(j: Json): set<Word>
    decreases j, 1
  {
    match j
    case List(items) => WordsAll(items)
    case Object(fields) => OwnWords(fields) + WordsFields(fields)
    case _ => {}
  }

  ghost function WordsAll(js: seq<Json>): set<Word>
    decreases js, 0
  {
    if js == [] then {} else WordsAll(js[1..]) + Words(js[0])
  }

  ghost function WordsFields(fields: seq<Field>): set<Word>
    decreases fields, 0
  {
    if fields == [] then {} else WordsFields(fields[1..]) + Words(fields[0].value)
  }

  lemma {:induction false} FieldsAreValues(fields: seq<Field>)
    ensures SizeFields(fields) == SizeAll(Values(fields)) && WordsFields(fields) == WordsAll(Values(fields))
  {
    if fields != [] {
      FieldsAreValues(fields[1..]);
      assert Values(fields)[1..] == Values(fields[1..]);
    }
  }

  lemma {:induction false} AllConcat(a: seq<Json>, b: seq<Json>)
    ensures SizeAll(a + b) == SizeAll(a) + SizeAll(b) && WordsAll(a + b) == WordsAll(a) + WordsAll(b)
  {
    if a == [] {
      assert a + b == b;
    } else {
      assert (a + b)[1..] == a[1..] + b;
      AllConcat(a[1..], b);
    }
  }

  lemma {:induction false} ContainersHoldTheWords(js: seq<Json>)
    ensures SizeAll(Filter(js, IsContainer)) <= SizeAll(js) && WordsAll(Filter(js, IsContainer)) == WordsAll(js)
  {
    if js != [] {
      ContainersHoldTheWords(js[1..]);
      AllConcat(if IsContainer(js[0]) then [js[0]] else [], Filter(js[1..], IsContainer));
    }
  }

  /** `_structured_codes`: the worklist ends and finds every word, wherever it is nested. */
  method StructuredCodes(value: Json) returns (codes: set<Word>)
    ensures codes == Words(value)
  {
    codes := {};
    var pending := [value];
    while pending != []
      invariant codes + WordsAll(pending) == Words(value)
      decreases SizeAll(pending)
    {
      var current := pending[|pending| - 1];
      var others := pending[..|pending| - 1];
      assert pending == others + [current];
      AllConcat(others, [current]);
      pending := others;
      match current {
        case Object(fields) =>
          FieldsAreValues(fields);
          ContainersHoldTheWords(Values(fields));
          AllConcat(others, Filter(Values(fields), IsContainer));
          codes := codes + OwnWords(fields);
          pending := others + Filter(Values(fields), IsContainer);
        case List(items) =>
          AllConcat(others, items);
          pending := others + items;
        case _ =>
      }
    }
  }

  // ---- Upstream HTTP errors ----

  datatype CredentialScope = OfAccount | SignedAsset | Public

  /** An upstream HTTP error; whether the request was an upload or a download is read from its context. */
  datatype HttpError = HttpError(status: int, retryAfter: Option<int>, scope: CredentialScope, upload: bool, download: bool,
                                 payload: Json, body: string)

  function WithStatus(f: Failure, status: int): Failure {
    f.(policy := f.policy.(status := status))
  }

  function InScope(f: Failure, scope: CredentialScope): Failure {
    if scope == SignedAsset then f.(policy := f.policy.(scope := Delivery)) else f
  }

  /** `classify_upstream_http_error`. */
  ghost function ClassifyHttp(e: HttpError): Failure {
    var structured := ClassifyCodes(Words(e.payload), e.retryAfter, e.body);
    if e.status == 400 then
      var f := if structured.Some? && structured.value.policy.status == 400 then structured.value
               else FailureOf(InvalidImageInput, None, e.body);
      if e.scope != OfAccount then InScope(f, e.scope) else f
    else if e.scope != OfAccount then
      var code :=
        if e.scope == SignedAsset && e.download then DownloadFailed
        else if e.status == 429 then UpstreamRateLimited
        else if e.status in {408, 504} then ConnectionTimeout
        else if e.status in {403, 423} || e.status >= 500 then UpstreamUnavailable
        else UpstreamError;
      InScope(WithStatus(FailureOf(code, e.retryAfter, e.body), e.status), e.scope)
    else if e.status == 401 then FailureOf(AuthInvalid, e.retryAfter, e.body)
    else if e.status == 429 && e.upload then FailureOf(FileUploadThrottled, e.retryAfter, e.body)
    else if structured.Some? && structured.value.policy.status == e.status then structured.value
    else if e.status in {403, 423} then WithStatus(FailureOf(UpstreamUnavailable, e.retryAfter, e.body), e.status)
    else if e.status == 429 then FailureOf(UpstreamRateLimited, e.retryAfter, e.body)
    else if e.status in {408, 504} then FailureOf(ConnectionTimeout, e.retryAfter, e.body)
    else if e.status >= 500 then WithStatus(FailureOf(UpstreamUnavailable, e.retryAfter, e.body), e.status)
    else WithStatus(FailureOf(UpstreamError, e.retryAfter, e.body), e.status)
  }

  lemma RealStatusIsKept(e: HttpError)
    ensures ClassifyHttp(e).policy.status == if e.status == 408 && e.scope == OfAccount then 504 else e.status
  {
    var structured := ClassifyCodes(Words(e.payload), e.retryAfter, e.body);
    if structured.Some? {
      StatusesOfCodes(structured.value.code);
    }
  }

  lemma BodyIsKept(e: HttpError)
    ensures ClassifyHttp(e).raw == e.body
  {
  }

  /** The real status decides between text and failure, whatever the payload says. The status itself is
      kept, but for a request timeout of an account, which becomes a gateway timeout. */
  lemma RealStatusDecides(e: HttpError)
    ensures ClassifyHttp(e).IsText() <==> e.status == 400
    ensures ClassifyHttp(e).policy.status == if e.status == 408 && e.scope == OfAccount then 504 else e.status
    ensures ClassifyHttp(e).raw == e.body
  {
    RealStatusIsKept(e);
    BodyIsKept(e);
  }

  /** The advice when to retry is passed on, except with a bad request whose payload names no reason that
      is itself a bad request. */
  lemma RetryAfterIsKeptIff(e: HttpError)
    requires e.retryAfter.Some?
    ensures ClassifyHttp(e).retryAfter == e.retryAfter <==>
            (e.status == 400 ==> var f := ClassifyCodes(Words(e.payload), e.retryAfter, e.body); f.Some? && f.value.IsText())
  {
  }

  /** A structured code whose own status is the real one. */
  ghost predicate Refines(e: HttpError, c: Code) {
    KnownCodes(Words(e.payload)) != {} && Best(KnownCodes(Words(e.payload))) == c && PolicyOf(c).status == e.status
  }

  /** Credentials are blamed for a 401 of an account, and for nothing else. */
  lemma AuthIsBlamedIff(e: HttpError)
    ensures ClassifyHttp(e).code == AuthInvalid <==> e.scope == OfAccount && e.status == 401
  {
  }

  /** An upload is throttled by a 429 of an account, and by nothing else. */
  lemma UploadIsThrottledIff(e: HttpError)
    ensures ClassifyHttp(e).code == FileUploadThrottled <==> e.scope == OfAccount && e.status == 429 && e.upload
  {
    if KnownCodes(Words(e.payload)) != {} {
      BestIsNotThrottled(Words(e.payload));
    }
  }

  /** A quota is exhausted only under a 429 of an account whose payload says so. */
  lemma QuotaIsBlamedIff(e: HttpError)
    ensures ClassifyHttp(e).code == ImageQuotaExhausted <==>
            e.scope == OfAccount && e.status == 429 && !e.upload && Refines(e, ImageQuotaExhausted)
  {
  }

  /** A content policy is violated only under a 400 whose payload says so. */
  lemma PolicyIsBlamedIff(e: HttpError)
    ensures ClassifyHttp(e).code == ContentPolicyViolation <==> e.status == 400 && Refines(e, ContentPolicyViolation)
  {
  }

  /** A 400 whose payload names no other reason of a bad request is blamed on the input. */
  lemma InputIsBlamedIff(e: HttpError)
    ensures ClassifyHttp(e).code == InvalidImageInput <==> e.status == 400 && (Refines(e, InvalidImageInput) || !RefinesBadRequest(e))
  {
  }

  /** A download fails when a signed asset is refused, but for a bad request, or when a 502 says so. */
  lemma DownloadFailsIff(e: HttpError)
    ensures ClassifyHttp(e).code == DownloadFailed <==>
            || (e.scope == SignedAsset && e.download && e.status != 400)
            || (e.scope == OfAccount && Refines(e, DownloadFailed))
  {
  }

  /** Any other 429 is a rate limit. */
  lemma RateIsLimitedIff(e: HttpError)
    ensures ClassifyHttp(e).code == UpstreamRateLimited <==>
            && e.status == 429
            && (if e.scope == OfAccount then !e.upload && !Refines(e, ImageQuotaExhausted) else !(e.scope == SignedAsset && e.download))
  {
    if e.scope == OfAccount && e.status == 429 {
      AccountIsLimited(e);
    } else if e.scope == OfAccount {
      assert Refines(e, UpstreamRateLimited) ==> e.status == 429;
    }
  }

  lemma AccountIsLimited(e: HttpError)
    requires e.scope == OfAccount && e.status == 429
    ensures ClassifyHttp(e).code == UpstreamRateLimited <==> !e.upload && !Refines(e, ImageQuotaExhausted)
  {
    if KnownCodes(Words(e.payload)) != {} {
      BestIsNotThrottled(Words(e.payload));
      LimitStatuses(Best(KnownCodes(Words(e.payload))));
    }
  }

  lemma LimitStatuses(c: Code)
    ensures PolicyOf(c).status == 429 <==> c in {UpstreamRateLimited, ImageQuotaExhausted, FileUploadThrottled, InsufficientQuota}
  {
  }

  ghost predicate RefinesBadRequest(e: HttpError) {
    KnownCodes(Words(e.payload)) != {} && PolicyOf(Best(KnownCodes(Words(e.payload)))).status == 400
  }

  /** Without a code in the payload the status alone decides: no access, a lost connection, a failing server,
      or anything else; what a signed asset is refused for is a matter of delivery. */
  lemma PlainHttpCodeIs(e: HttpError)
    requires KnownCodes(Words(e.payload)) == {} && e.status !in {400, 401, 429} && !(e.scope == SignedAsset && e.download)
    ensures ClassifyHttp(e).code ==
            if e.status in {408, 504} then ConnectionTimeout
            else if e.status in {403, 423} || e.status >= 500 then UpstreamUnavailable
            else if e.status == 401 && e.scope == OfAccount then AuthInvalid
            else UpstreamError
  {
  }

  /** The failure carries the policy of its code, but for the real status, and a failure of a signed asset is one
      of delivery. */
  lemma HttpPolicyIs(e: HttpError)
    ensures var f := ClassifyHttp(e);
            && f.policy.capability == PolicyOf(f.code).capability && f.policy.retryable == PolicyOf(f.code).retryable
            && f.policy.errorType == PolicyOf(f.code).errorType
            && f.policy.scope == if e.scope == SignedAsset then Delivery else PolicyOf(f.code).scope
  {
  }
}
