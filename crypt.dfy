/** Stand-in for the bcrypt library: a password hash and the check that a
    plain password matches a stored hash. The handlers rely on three facts
    about it: a hash is never empty, a password matches its own hash, and
    two passwords match each other's hash exactly when they agree on their
    significant prefix, since bcrypt reads at most 72 bytes of a password.
    The salt and the cost factor are not modelled. */
module Crypt {

  /** bcrypt ignores everything after the 72nd byte of a password. */
  const MaxPasswordLength: nat := 72

  /** The part of a password that bcrypt reads. */
  function Significant(password: string): (p: string)
    ensures |p| <= MaxPasswordLength && p <= password
    ensures |password| <= MaxPasswordLength ==> p == password
    ensures |password| > MaxPasswordLength ==> p == password[..MaxPasswordLength]
  {
    if |password| <= MaxPasswordLength then password else password[..MaxPasswordLength]
  }

  /** The stored form of a password. bcrypt's output is never empty, which is
      what the `required` password fields of the schemas need. */
  function Hash(password: string): (h: string)
    ensures |h| > 0
  {
    "$2b$10$" + Significant(password)
  }

  /** bcrypt.compare(password, hash) */
  predicate Matches(password: string, hash: string)
  {
    hash == Hash(password)
  }

  lemma MatchesOwnHash(password: string)
    ensures Matches(password, Hash(password))
  {
  }

  /** A password matches another's hash exactly when the two agree on the
      part bcrypt reads: a wrong password that shares the first 72 bytes
      of the right one is accepted. */
  lemma MatchesIff(password: string, other: string)
    ensures Matches(password, Hash(other)) <==> Significant(password) == Significant(other)
  {
    var prefix := "$2b$10$";
    if Matches(password, Hash(other)) {
      assert Significant(password) == (prefix + Significant(password))[|prefix|..];
      assert Significant(other) == (prefix + Significant(other))[|prefix|..];
    }
  }
}
