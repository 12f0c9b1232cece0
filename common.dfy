/** Values shared by the storefront modules: optional values, results with
    an error value, user roles and the few string operations the source uses. */
module Common {

  datatype Option<T> = None | Some(value: T)

  /** The success value or the error a Java method throws / a handler reports. */
  datatype Result<T, E> = Ok(value: T) | Err(error: E)

  /** `User.Role` of the backend. */
  datatype Role = USER | ADMIN

  /** The authenticated caller as the controllers see it: its id and its role. */
  datatype Principal = Principal(id: int, role: Role)

  /** `String.startsWith` (Java) and `String.prototype.startsWith` (JavaScript). */
  predicate StartsWith(s: string, prefix: string)
  {
    |prefix| <= |s| && s[..|prefix|] == prefix
  }

  /** `String.prototype.includes`: `part` occurs somewhere in `s`. */
  predicate Includes(s: string, part: string)
  {
    exists i | 0 <= i <= |s| - |part| :: OccursAt(s, part, i)
  }

  predicate OccursAt(s: string, part: string, i: int)
  {
    0 <= i <= |s| - |part| && s[i..i + |part|] == part
  }

  /** `toLowerCase` restricted to ASCII letters. */
  function LowerChar(c: char): char
  {
    if 'A' <= c <= 'Z' then (c as int + 32) as char else c
  }

  function ToLower(s: string): string
  {
    seq(|s|, i requires 0 <= i < |s| => LowerChar(s[i]))
  }

  lemma StartsWithConcat(prefix: string, rest: string)
    ensures StartsWith(prefix + rest, prefix)
    ensures (prefix + rest)[|prefix|..] == rest
  {
    assert (prefix + rest)[..|prefix|] == prefix;
  }

  lemma IncludesEmpty(s: string)
    ensures Includes(s, "")
  {
    assert OccursAt(s, "", 0);
  }
}
