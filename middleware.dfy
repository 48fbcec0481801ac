/**
 * The request middlewares of the chats application
 * (Django-Middleware-0x03/chats/middleware.py): a pass-through time
 * restriction, a fixed-window per-IP rate limiter on POST requests, and a role
 * gate on administrative paths. Time is measured in integer ticks, and the
 * cache is a map whose entries never expire on their own.
 */
module Middleware {
  import opened Wrappers

  /** The requesting user, as `request.user` presents it. */
  datatype RequestUser =
    | Anonymous
    | Authenticated(isStaff: bool, isSuperuser: bool, groups: set<string>)

  datatype Request = Request(httpMethod: string, path: string, meta: map<string, string>, user: RequestUser)

  /** What a middleware does with a request: hand it on, or answer 403 with a reason. */
  datatype Response = Forwarded | Forbidden(reason: string)

  /** `RestrictAccessByTimeMiddleware.__call__`: every request is handed on. */
  function RestrictAccessByTime(request: Request): (r: Response)
    ensures r == Forwarded
  {
    Forwarded
  }

  // ---------------------------------------------------------------------------
  // Client address
  // ---------------------------------------------------------------------------

  /** `s.split(',')[0]`: the text before the first comma, or all of `s` when it has none. */
  function FirstField(s: string): (r: string)
    ensures r <= s
    ensures ',' !in r
    ensures |r| == |s| || s[|r|] == ','
  {
    if s == [] then []
    else if s[0] == ',' then []
    else [s[0]] + FirstField(s[1..])
  }

  /** The first field of a comma-joined list is its first element. */
  lemma {:induction false} FirstFieldOfJoined(a: string, b: string)
    requires ',' !in a
    ensures FirstField(a + "," + b) == a
  {
    if a != [] {
      assert (a + "," + b)[1..] == a[1..] + "," + b;
      FirstFieldOfJoined(a[1..], b);
    }
  }

  /**
   * `get_client_ip`: the first field of a non-empty `HTTP_X_FORWARDED_FOR`,
   * unstripped, otherwise `REMOTE_ADDR` when present.
   */
  function GetClientIp(meta: map<string, string>): (r: Option<string>)
    ensures "HTTP_X_FORWARDED_FOR" in meta && meta["HTTP_X_FORWARDED_FOR"] != "" ==>
      var header := meta["HTTP_X_FORWARDED_FOR"];
      && r.Some? && r.value <= header && ',' !in r.value
      && (|r.value| == |header| || header[|r.value|] == ',')
    ensures !("HTTP_X_FORWARDED_FOR" in meta && meta["HTTP_X_FORWARDED_FOR"] != "") ==>
      r == (if "REMOTE_ADDR" in meta then Some(meta["REMOTE_ADDR"]) else None)
  {
    if "HTTP_X_FORWARDED_FOR" in meta && meta["HTTP_X_FORWARDED_FOR"] != "" then
      Some(FirstField(meta["HTTP_X_FORWARDED_FOR"]))
    else if "REMOTE_ADDR" in meta then Some(meta["REMOTE_ADDR"])
    else None
  }

  /** A proxy chain `client, proxy, ...` is attributed to its first hop. */
  lemma ClientIpOfProxyChain(meta: map<string, string>, client: string, rest: string)
    requires ',' !in client
    requires "HTTP_X_FORWARDED_FOR" in meta && meta["HTTP_X_FORWARDED_FOR"] == client + "," + rest
    ensures GetClientIp(meta) == Some(client)
  {
    FirstFieldOfJoined(client, rest);
  }

  // ---------------------------------------------------------------------------
  // Rate limiting
  // ---------------------------------------------------------------------------

  const Limit: nat := 5
  const Window: int := 60
  const RateLimitMessage: string := "Rate limit exceeded. Please try again in a minute."

  /** The cached `{'count': ..., 'start_time': ...}` record. */
  datatype RateRecord = RateRecord(count: nat, startTime: int)

  /** The limiter's verdict on one POST: reject, or accept and store a record. */
  datatype Decision = Reject | Accept(record: RateRecord)

  /** `f"rate_limit_{ip_address}"`; a missing address formats as `None`. */
  function CacheKey(ip: Option<string>): string
  {
    "rate_limit_" + (if ip.Some? then ip.value else "None")
  }

  /**
   * The window test of `OffensiveLanguageMiddleware.__call__` for a POST at
   * `now`, given the cached record if any (a missing one reads as count 0
   * starting now).
   */
  function Admit(stored: Option<RateRecord>, now: int): (d: Decision)
    ensures stored.None? ==> d == Accept(RateRecord(1, now))
    ensures stored.Some? && now - stored.value.startTime > Window ==> d == Accept(RateRecord(1, now))
    ensures stored.Some? && now - stored.value.startTime <= Window ==>
      (d == Reject <==> stored.value.count >= Limit)
    ensures stored.Some? && now - stored.value.startTime <= Window && d.Accept? ==>
      d.record == stored.value.(count := stored.value.count + 1)
  {
    var data := if stored.Some? then stored.value else RateRecord(0, now);
    if now - data.startTime > Window then Accept(RateRecord(1, now))
    else if data.count >= Limit then Reject
    else Accept(data.(count := data.count + 1))
  }

  /** An accepted record always holds a count between 1 and `Limit`, provided the stored one did not exceed it. */
  lemma AdmitKeepsCountInRange(stored: Option<RateRecord>, now: int)
    requires stored.Some? ==> stored.value.count <= Limit
    ensures Admit(stored, now).Accept? ==> 1 <= Admit(stored, now).record.count <= Limit
  {
  }

  /** The number of POSTs accepted at the successive `times`, starting from `stored`. */
  function Accepted(stored: Option<RateRecord>, times: seq<int>): nat
    decreases |times|
  {
    if times == [] then 0
    else match Admit(stored, times[0])
      case Reject => Accepted(stored, times[1..])
      case Accept(rec) => 1 + Accepted(Some(rec), times[1..])
  }

  /**
   * Within one window at most `Limit` POSTs from one address are accepted:
   * starting from a record with count `c`, every request no later than
   * `Window` ticks after its start admits at most `Limit - c` more.
   */
  lemma {:induction false} AtMostLimitPerWindow(rec: RateRecord, times: seq<int>)
    requires rec.count <= Limit
    requires forall i | 0 <= i < |times| :: times[i] - rec.startTime <= Window
    ensures Accepted(Some(rec), times) <= Limit - rec.count
    decreases |times|
  {
    if times != [] {
      match Admit(Some(rec), times[0])
      case Reject =>
        AtMostLimitPerWindow(rec, times[1..]);
      case Accept(next) =>
        assert next == rec.(count := rec.count + 1);
        AtMostLimitPerWindow(next, times[1..]);
    }
  }

  /** `OffensiveLanguageMiddleware`: the per-address counters in the cache. */
  class RateLimiter {
    var cache: map<string, RateRecord>

    /** Every stored count is between 1 and `Limit`. */
    ghost predicate Valid()
      reads this
    {
      forall key | key in cache :: 1 <= cache[key].count <= Limit
    }

    constructor ()
      ensures Valid() && cache == map[]
    {
      cache := map[];
    }

    /**
     * `__call__`: a POST is admitted or refused by `Admit` on its address's
     * record; an admitted one stores the new record. Other methods pass
     * without touching the cache.
     */
    method Call(request: Request, now: int) returns (response: Response)
      requires Valid()
      modifies this
      ensures Valid()
      ensures request.httpMethod != "POST" ==> response == Forwarded && cache == old(cache)
      ensures request.httpMethod == "POST" ==>
        var key := CacheKey(GetClientIp(request.meta));
        match Admit(if key in old(cache) then Some(old(cache)[key]) else None, now)
        case Reject => response == Forbidden(RateLimitMessage) && cache == old(cache)
        case Accept(rec) => response == Forwarded && cache == old(cache)[key := rec]
    {
      response := Forwarded;
      if request.httpMethod == "POST" {
        var key := CacheKey(GetClientIp(request.meta));
        var stored := if key in cache then Some(cache[key]) else None;
        AdmitKeepsCountInRange(stored, now);
        var data := if stored.Some? then stored.value else RateRecord(0, now);
        if now - data.startTime > Window {
          data := RateRecord(1, now);
        } else {
          if data.count >= Limit {
            return Forbidden(RateLimitMessage);
          }
          data := data.(count := data.count + 1);
        }
        cache := cache[key := data];
      }
    }
  }

  // ---------------------------------------------------------------------------
  // Role gate
  // ---------------------------------------------------------------------------

  const AdminPaths: seq<string> := ["/admin/", "/delete/", "/moderate/", "/admin-panel/"]
  const AuthRequiredMessage: string := "Authentication required to access this resource."
  const RoleRequiredMessage: string := "Insufficient permissions. Admin or moderator role required."

  /** `any(path.startswith(p) for p in prefixes)` */
  function AnyPrefix(prefixes: seq<string>, path: string): (r: bool)
    ensures r <==> exists i :: 0 <= i < |prefixes| && prefixes[i] <= path
  {
    if prefixes == [] then false
    else prefixes[0] <= path || AnyPrefix(prefixes[1..], path)
  }

  /** `is_moderator`: membership of the `moderator` group. */
  predicate IsModerator(groups: set<string>)
  {
    "moderator" in groups
  }

  /**
   * `RolepermissionMiddleware.__call__`: paths under an administrative prefix
   * need an authenticated staff member, superuser or moderator.
   */
  function RolePermission(request: Request): (r: Response)
    ensures !AnyPrefix(AdminPaths, request.path) ==> r == Forwarded
    ensures AnyPrefix(AdminPaths, request.path) && request.user.Anonymous? ==> r == Forbidden(AuthRequiredMessage)
    ensures AnyPrefix(AdminPaths, request.path) && request.user.Authenticated? ==>
      (r == Forwarded <==> request.user.isStaff || request.user.isSuperuser || IsModerator(request.user.groups))
    ensures r.Forbidden? ==> r.reason in {AuthRequiredMessage, RoleRequiredMessage}
  {
    if AnyPrefix(AdminPaths, request.path) then
      if request.user.Anonymous? then Forbidden(AuthRequiredMessage)
      else if !(request.user.isStaff || request.user.isSuperuser || IsModerator(request.user.groups)) then
        Forbidden(RoleRequiredMessage)
      else Forwarded
    else Forwarded
  }

  /** A path under none of the administrative prefixes, such as the site root, is always handed on. */
  lemma PublicPathsPass(request: Request)
    requires forall i | 0 <= i < |AdminPaths| :: !(AdminPaths[i] <= request.path)
    ensures RolePermission(request) == Forwarded
  {
  }
}
