/** The service in the shape of the source: calls that read and write the key store one command at a time. */
module VerificationServiceClass {
  import opened Wrappers
  import Codes = VerificationCodes

  type Key = Codes.Key

  class VerificationService {
    var now: int
    var store: map<Key, Codes.Entry>

    function View(): Codes.State
      reads this
    {
      Codes.State(now, store)
    }

    constructor (start: int)
      ensures View() == Codes.State(start, map[])
    {
      now, store := start, map[];
    }

    // ----- Store commands -----

    predicate Exists(k: Key)
      reads this
    {
      k in store && (store[k].expiry.None? || now < store[k].expiry.value)
    }

    method Wait(seconds: nat)
      modifies this`now
      ensures now == old(now) + seconds
    {
      now := now + seconds;
    }

    method SetEx(k: Key, seconds: int, text: string)
      modifies this`store
      ensures View() == Codes.SetEx(old(View()), k, seconds, text)
    {
      store := store[k := Codes.Entry(Codes.Text(text), Some(now + seconds))];
    }

    method Get(k: Key) returns (text: Option<string>)
      ensures text == if Codes.Live(View(), k) && store[k].value.Text? then Some(store[k].value.s) else None
    {
      text := if Exists(k) && store[k].value.Text? then Some(store[k].value.s) else None;
    }

    method GetCount(k: Key) returns (n: int)
      ensures n == Codes.Count(View(), k)
    {
      n := if Exists(k) && store[k].value.Counter? then store[k].value.n else 0;
    }

    method Incr(k: Key) returns (n: int)
      modifies this`store
      ensures View() == Codes.Incr(old(View()), k)
      ensures n == old(Codes.Count(View(), k)) + 1 && k in store && n == Codes.Count(View(), k)
    {
      n := GetCount(k);
      n := n + 1;
      store := store[k := Codes.Entry(Codes.Counter(n), if Exists(k) then store[k].expiry else None)];
    }

    method Expire(k: Key, seconds: int)
      requires k in store
      modifies this`store
      ensures View() == Codes.Expire(old(View()), k, seconds)
    {
      store := store[k := Codes.Entry(store[k].value, Some(now + seconds))];
    }

    method Delete(k: Key)
      modifies this`store
      ensures View() == Codes.Delete(old(View()), k)
    {
      store := store - {k};
    }

    // ----- Service calls -----

    method CheckRateLimit(email: string, ip: Option<string>) returns (retryAfter: Option<int>)
      ensures retryAfter == Codes.RateLimit(View(), email, ip)
    {
      var emailKey := Codes.EmailLimitKey(email);
      if Exists(emailKey) {
        return Some(Codes.Ttl(View(), emailKey));
      }
      var ipKey := Codes.IpLimitKey(Codes.IpText(ip));
      if Exists(ipKey) {
        return Some(Codes.Ttl(View(), ipKey));
      }
      retryAfter := None;
    }

    method CheckLocked(p: Codes.Pair) returns (ttl: Option<int>)
      ensures ttl == if Codes.Live(View(), Codes.LockedKey(p)) then Some(Codes.Ttl(View(), Codes.LockedKey(p))) else None
    {
      ttl := None;
      if Exists(Codes.LockedKey(p)) {
        ttl := Some(Codes.Ttl(View(), Codes.LockedKey(p)));
      }
    }

    method CreateCode(p: Codes.Pair, ip: Option<string>, generated: string) returns (result: Codes.CreateResult)
      modifies this`store
      ensures (View(), result) == Codes.CreateCode(old(View()), p, ip, generated)
    {
      if p.codeType !in Codes.VALID_TYPES {
        return Codes.InvalidType;
      }
      var limited := CheckRateLimit(p.email, ip);
      if limited.Some? {
        return Codes.RateLimited(limited.value);
      }
      var locked := CheckLocked(p);
      if locked.Some? {
        return Codes.CreateLocked(locked.value);
      }
      SetEx(Codes.CodeKey(p), Codes.CODE_EXPIRY_SECONDS, generated);
      SetEx(Codes.EmailLimitKey(p.email), Codes.RATE_LIMIT_SECONDS, "1");
      if ip.Some? && ip.value != "" {
        SetEx(Codes.IpLimitKey(ip.value), Codes.RATE_LIMIT_SECONDS, "1");
      }
      result := Codes.Created(generated);
    }

    method VerifyCode(p: Codes.Pair, code: string) returns (result: Codes.VerifyResult)
      modifies this`store
      ensures (View(), result) == Codes.VerifyCode(old(View()), p, code)
    {
      var locked := CheckLocked(p);
      if locked.Some? {
        return Codes.VerifyLocked(locked.value);
      }
      var stored := Get(Codes.CodeKey(p));
      if stored.None? || stored.value == "" {
        return Codes.CodeExpired;
      }
      if stored.value != code {
        var attempts := Incr(Codes.AttemptsKey(p));
        if attempts == 1 {
          Expire(Codes.AttemptsKey(p), Codes.LOCKOUT_SECONDS);
        }
        if attempts >= Codes.MAX_ATTEMPTS {
          SetEx(Codes.LockedKey(p), Codes.LOCKOUT_SECONDS, "1");
          return Codes.TooManyAttempts(attempts);
        }
        return Codes.InvalidCode(Codes.MAX_ATTEMPTS - attempts);
      }
      Delete(Codes.CodeKey(p));
      Delete(Codes.AttemptsKey(p));
      Delete(Codes.LockedKey(p));
      result := Codes.Verified;
    }

    method GetRemainingAttempts(p: Codes.Pair) returns (left: int)
      ensures left == Codes.RemainingAttempts(View(), p)
    {
      var locked := CheckLocked(p);
      if locked.Some? {
        return 0;
      }
      var attempts := GetCount(Codes.AttemptsKey(p));
      left := if Codes.MAX_ATTEMPTS - attempts < 0 then 0 else Codes.MAX_ATTEMPTS - attempts;
    }
  }
}
