/** The lock gate screen: the hours input, the choice between unlocking and
    locking, and the countdown shown while locked. */
module MirrorRoom {
  import opened Base
  import opened AppContext

  const InitialHours := 12
  const MinHours := 1
  const MaxHours := 72
  const MsPerHour := 60 * 60 * 1000
  const MsPerMinute := 60 * 1000

  /** What `parseInt` makes of the input's text: an integer or `NaN`. */
  datatype Parsed = NaN | Int(n: int)

  /** The input handler: `Math.max(1, Math.min(72, parseInt(v) || 12))`.
      Both `NaN` and `0` are falsy, so both fall back to twelve hours. */
  function ClampHours(p: Parsed): (h: int)
    ensures MinHours <= h <= MaxHours
    ensures p.Int? && MinHours <= p.n <= MaxHours ==> h == p.n
    ensures p.Int? && p.n > MaxHours ==> h == MaxHours
    ensures p.Int? && p.n < 0 ==> h == MinHours
    ensures p.NaN? || p.n == 0 ==> h == InitialHours
  {
    var v := match p
      case NaN => InitialHours
      case Int(n) => if n == 0 then InitialHours else n;
    Max(MinHours, Min(MaxHours, v))
  }

  /** Clamping a value the input already shows keeps it. */
  lemma ClampHoursFixesRange(h: int)
    requires MinHours <= h <= MaxHours
    ensures ClampHours(Int(ClampHours(Int(h)))) == h
  {
  }

  /** `Math.max(0, lockUntil - now)`. */
  function TimeRemaining(lockUntil: int, now: int): (ms: nat)
    ensures ms >= lockUntil - now
    ensures lockUntil > now ==> ms == lockUntil - now
    ensures lockUntil <= now ==> ms == 0
  {
    if lockUntil - now > 0 then lockUntil - now else 0
  }

  /** The whole hours and leftover whole minutes of a non-negative span:
      `floor(ms / 3600000)` and `floor((ms % 3600000) / 60000)`. */
  function HoursMinutes(ms: nat): (hm: (nat, nat))
    ensures hm.1 < 60
    ensures hm.0 * MsPerHour + hm.1 * MsPerMinute <= ms < hm.0 * MsPerHour + (hm.1 + 1) * MsPerMinute
  {
    var h := ms / MsPerHour;
    var rest := ms % MsPerHour;
    var m := rest / MsPerMinute;
    assert rest == m * MsPerMinute + rest % MsPerMinute;
    (h, m)
  }

  /** What the screen shows. */
  datatype View = LockedScreen(hours: nat, minutes: nat) | ChoiceScreen

  /** `if (isLocked && lockUntil)`: the countdown is shown exactly when the
      app is locked and has an unlock time; otherwise the choice. */
  function Render(s: State, now: int): (v: View)
    ensures v.LockedScreen? <==> s.isLocked && s.lockUntil.Some?
    ensures v.LockedScreen? ==>
      && v.minutes < 60
      && var ms := TimeRemaining(s.lockUntil.value, now);
         v.hours * MsPerHour + v.minutes * MsPerMinute <= ms < v.hours * MsPerHour + (v.minutes + 1) * MsPerMinute
  {
    if s.isLocked && s.lockUntil.Some? then
      var hm := HoursMinutes(TimeRemaining(s.lockUntil.value, now));
      LockedScreen(hm.0, hm.1)
    else ChoiceScreen
  }

  /** "I Want to Change Myself", the locked screen's only button: it calls
      `resetLock`, a member this container does not define, so the model
      gives the call no effect. The choice screen has no such button. */
  function ChangeMyself(s: State, now: int): (calls: seq<Call>)
    ensures calls != [] <==> Render(s, now).LockedScreen?
    ensures calls != [] ==> calls == [ResetLockCall]
    ensures forall store: Store, env: Env, i :: 0 <= i < |calls| ==> Perform(s, store, calls[i], env).None?
  {
    if s.isLocked && s.lockUntil.Some? then [ResetLockCall] else []
  }

  /** With the store mirroring the state, the gate is just `isLocked`. */
  lemma GateIsLockFlag(s: State, store: Store, now: int)
    requires Mirrors(s, store)
    ensures Render(s, now).LockedScreen? <==> s.isLocked
  {
  }

  /** The two answers the screen offers. */
  datatype Choice = ImHer | NotReady

  /** The call each answer makes once its one-second delay is over: "I'M HER"
      unlocks; "Not ready" asks for a lock of `customHours` hours. */
  function Decide(choice: Choice, customHours: int): (c: Call)
    ensures choice == ImHer ==> c == UnlockAppCall
    ensures choice == NotReady ==> c.LockAppCall? && c.durationMs == customHours * MsPerHour
  {
    match choice
    case ImHer => UnlockAppCall
    case NotReady => LockAppCall(customHours * MsPerHour)
  }

  /** Whatever the hours input shows, locking through this container lasts
      twelve hours: its `lockApp` takes no duration. The requested duration
      matches only when the input shows the default. */
  lemma LockIgnoresRequestedHours(s: State, store: Store, env: Env, p: Parsed)
    ensures var c := Decide(NotReady, ClampHours(p));
      && Perform(s, store, c, env).Some?
      && Perform(s, store, c, env).value.state.lockUntil == Some(env.now + LockDurationMs)
      && (c.durationMs == LockDurationMs <==> ClampHours(p) == InitialHours)
  {
  }

  /** Answering "I'M HER" unlocks and adds exactly one to the streak. */
  lemma ImHerUnlocks(s: State, store: Store, env: Env, hours: int)
    ensures var r := Perform(s, store, Decide(ImHer, hours), env);
      && r.Some?
      && !r.value.state.isLocked && r.value.state.lockUntil == None
      && r.value.state.streak == s.streak + 1
  {
  }
}
