/**
 Transaction cookies: positive signed 32-bit numbers that wrap from the largest back to 1, and the
 unbounded count of submissions they stand for.
 */
module Cookies {

  const MIN_COOKIE := 1
  /** The number of distinct cookies, 2^31 - 1. */
  const COOKIES := 0x7FFF_FFFF

  type s32 = x: int | -0x8000_0000 <= x < 0x8000_0000

  datatype TxStatus = Complete | InProgress | Paused

  function WrapSigned(x: int): s32
    requires -0x8000_0000 <= x <= 0x8000_0000
  {
    if x == 0x8000_0000 then -0x8000_0000 else x
  }

  /** The cookie handed out after `cookie`. */
  function NextCookie(cookie: s32): s32 {
    var next := WrapSigned(cookie + 1);
    if next < MIN_COOKIE then MIN_COOKIE else next
  }

  /** The kernel's circular comparison: what a cookie's status is, given the last completed and last used ones. */
  function CookieStatus(cookie: int, last: int, used: int): TxStatus {
    if last <= used then
      if cookie <= last || cookie > used then Complete else InProgress
    else
      if cookie <= last && cookie > used then Complete else InProgress
  }

  /** The cookie of the n-th submission of a channel; number 0 stands for the initial value. */
  function CookieOf(n: nat): (c: s32)
    ensures 1 <= c <= 0x7FFF_FFFF
  {
    1 + n % 0x7FFF_FFFF
  }

  /** Handing out cookies refines counting submissions, across the wrap. */
  lemma NextCookieCounts(n: nat)
    ensures NextCookie(CookieOf(n)) == CookieOf(n + 1)
  {
  }

  /** Some submission after number c and up to number u carries the cookie. */
  ghost predicate Outstanding(cookie: int, c: nat, u: nat) {
    exists k :: c < k <= u && CookieOf(k) == cookie
  }

  /** The n-th submission is the only one within any window of 2^31 - 1 to carry its cookie. */
  lemma CookieUnique(j: nat, k: nat)
    requires CookieOf(j) == CookieOf(k) && j <= k < j + COOKIES
    ensures j == k
  {
  }

  lemma StatusWithin(cookie: int, c: nat, u: nat)
    requires c <= u < c + COOKIES && 1 <= cookie <= COOKIES
    ensures CookieStatus(cookie, CookieOf(c), CookieOf(u)) == InProgress <==> Outstanding(cookie, c, u)
  {
    var base := c - c % 0x7FFF_FFFF;
    var low := base + (cookie - 1);
    var high := low + 0x7FFF_FFFF;
    assert CookieOf(low) == cookie && CookieOf(high) == cookie;
    if CookieStatus(cookie, CookieOf(c), CookieOf(u)) == InProgress {
      assert c < low <= u || c < high <= u;
    } else {
      forall k | c < k <= u
        ensures CookieOf(k) != cookie
      {
      }
    }
  }

  /** The circular comparison answers for every cookie. */
  ghost predicate StatusFaithful(c: nat, u: nat) {
    forall cookie: int :: 1 <= cookie <= COOKIES ==>
      (CookieStatus(cookie, CookieOf(c), CookieOf(u)) == InProgress <==> Outstanding(cookie, c, u))
  }

  /**
   A cookie is reported in progress exactly when a submission carrying it is outstanding, for every
   cookie, precisely as long as fewer than 2^31 - 1 submissions are outstanding.
   */
  lemma StatusFaithfulIff(c: nat, u: nat)
    requires c <= u
    ensures StatusFaithful(c, u) <==> u - c < COOKIES
  {
    if u - c < COOKIES {
      forall cookie: int | 1 <= cookie <= COOKIES
        ensures CookieStatus(cookie, CookieOf(c), CookieOf(u)) == InProgress <==> Outstanding(cookie, c, u)
      {
        StatusWithin(cookie, c, u);
      }
    } else {
      var v := CookieOf(c);
      assert CookieOf(c + 0x7FFF_FFFF) == v;
      assert Outstanding(v, c, u);
      assert CookieStatus(v, CookieOf(c), CookieOf(u)) == Complete;
    }
  }
}
