/** `AuditorAwareImpl.getCurrentAuditor()`: who is acting now, for the audit fields. The
    security context it reads is a parameter, and a context whose reading throws is the
    `Faulted` variant. A Java `String` is a sequence of `char`; names with characters above
    U+FFFF are not modelled exactly, since Java counts them as two UTF-16 units. */
module AuditorAware {
  import opened Wrappers

  const SystemUser := "SYSTEM"
  const AnonymousUser := "ANONYMOUS"
  /** The principal name Spring Security gives anonymous authentication. */
  const AnonymousPrincipal := "anonymousUser"
  const MaxAuditorLength := 50

  /** What the code reads of an `Authentication`: `isAuthenticated()` and `getName()`. */
  datatype Authentication = Authentication(authenticated: bool, name: Option<string>)

  datatype SecurityContext =
    | Context(authentication: Option<Authentication>)
    | Faulted   // an exception is thrown while the context is read

  // ---------------- String.trim() ----------------

  /** `trim()` strips every leading and trailing character at or below U+0020. */
  function TrimLeading(s: string): (r: string)
    ensures |r| <= |s| && r == s[|s| - |r|..]
    ensures r == [] || r[0] > ' '
    ensures forall i :: 0 <= i < |s| - |r| ==> s[i] <= ' '
  {
    if |s| > 0 && s[0] <= ' ' then TrimLeading(s[1..]) else s
  }

  function TrimTrailing(s: string): (r: string)
    ensures |r| <= |s| && r == s[..|r|]
    ensures r == [] || r[|r| - 1] > ' '
    ensures forall i :: |r| <= i < |s| ==> s[i] <= ' '
  {
    if |s| > 0 && s[|s| - 1] <= ' ' then TrimTrailing(s[..|s| - 1]) else s
  }

  /** `trim()`: the part of `s` that starts after its leading characters at or below U+0020
      and ends before its trailing ones; it is empty or starts and ends above U+0020. */
  function Trim(s: string): (r: string)
    ensures var start := |s| - |TrimLeading(s)|;
      && start + |r| <= |s| && r == s[start..start + |r|]
      && (forall i :: 0 <= i < start ==> s[i] <= ' ')
      && (forall i :: start + |r| <= i < |s| ==> s[i] <= ' ')
    ensures r == [] || (r[0] > ' ' && r[|r| - 1] > ' ')
  {
    TrimTrailing(TrimLeading(s))
  }

  /** A string that `trim()` leaves empty: every character is at or below U+0020. */
  predicate IsBlank(s: string) {
    forall i :: 0 <= i < |s| ==> s[i] <= ' '
  }

  /** The guarantees of `TrimLeading` and `TrimTrailing` settle it: what is left after
      stripping the front is empty or starts above U+0020, so stripping the back empties it
      only if it was empty already. */
  lemma TrimmedEmptyIffBlank(s: string)
    ensures Trim(s) == [] <==> IsBlank(s)
  {
  }

  // ---------------- the resolution chain ----------------

  /** `getCurrentAuditor()`: always a present value of at most 50 characters. No or an
      unauthenticated authentication, or the anonymous principal, gives "ANONYMOUS"; a null
      or blank name, or a fault, gives "SYSTEM"; a longer name is cut to its first 50
      characters; any other name is returned as it is, surrounding blanks included. */
  function GetCurrentAuditor(context: SecurityContext): (r: Option<string>)
    ensures r.Some? && |r.value| <= MaxAuditorLength
    ensures context.Faulted? ==> r == Some(SystemUser)
    ensures (context.Context? && (context.authentication.None? || !context.authentication.value.authenticated))
              ==> r == Some(AnonymousUser)
    ensures context == Context(Some(Authentication(true, Some(AnonymousPrincipal)))) ==> r == Some(AnonymousUser)
    ensures context == Context(Some(Authentication(true, None))) ==> r == Some(SystemUser)
    ensures forall name :: context == Context(Some(Authentication(true, Some(name)))) ==>
              if name == AnonymousPrincipal then r == Some(AnonymousUser)
              else if IsBlank(name) then r == Some(SystemUser)
              else if |name| > MaxAuditorLength then r == Some(name[..MaxAuditorLength])
              else r == Some(name)
  {
    match context
    case Faulted => Some(SystemUser)
    case Context(authentication) =>
      if authentication.None? || !authentication.value.authenticated then Some(AnonymousUser)
      else if authentication.value.name == Some(AnonymousPrincipal) then Some(AnonymousUser)
      else
        match authentication.value.name
        case None => Some(SystemUser)
        case Some(currentUser) =>
          TrimmedEmptyIffBlank(currentUser);
          if Trim(currentUser) == [] then Some(SystemUser)
          else if |currentUser| > MaxAuditorLength then Some(currentUser[..MaxAuditorLength])
          else Some(currentUser)
  }

  /** The authenticated context whose principal is called `name`. */
  function SignedIn(name: string): SecurityContext {
    Context(Some(Authentication(true, Some(name))))
  }

  /** A name that is not blank, not the anonymous principal and at most 50 characters long
      is the auditor unchanged. */
  lemma OrdinaryNameIsKept(name: string)
    requires name != AnonymousPrincipal && !IsBlank(name) && |name| <= MaxAuditorLength
    ensures GetCurrentAuditor(SignedIn(name)) == Some(name)
  {
  }

  /** A name longer than 50 characters that is not blank gives exactly its first 50. */
  lemma LongNameIsTruncated(name: string)
    requires |name| > MaxAuditorLength && !IsBlank(name)
    ensures var r := GetCurrentAuditor(SignedIn(name)).value;
      |r| == MaxAuditorLength && r == name[..MaxAuditorLength]
  {
  }

  /** The anonymous principal's name is never handed out as an auditor. */
  lemma AuditorIsNeverAnonymousPrincipal(context: SecurityContext)
    ensures GetCurrentAuditor(context) != Some(AnonymousPrincipal)
  {
  }

  /** Resolving again, with the resolved value as the signed-in name, gives it back, unless
      truncation produced a blank value. */
  lemma ResolutionIsStable(context: SecurityContext)
    ensures var r := GetCurrentAuditor(context).value;
      IsBlank(r) || GetCurrentAuditor(SignedIn(r)) == Some(r)
  {
  }

  /** Truncation happens after the blank check, so 50 spaces followed by a letter yields a
      blank auditor of 50 spaces. */
  lemma BlankPrefixSurvivesTruncation()
    ensures var name := seq(50, _ => ' ') + ['x'];
      GetCurrentAuditor(SignedIn(name)) == Some(seq(50, _ => ' '))
  {
    var name := seq(50, _ => ' ') + ['x'];
    assert !IsBlank(name) by { assert name[50] == 'x'; }
    assert name[..50] == seq(50, _ => ' ');
  }
}
