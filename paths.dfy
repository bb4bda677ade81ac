/** Path joining as `os.path.join` does it with two components on a POSIX host. */
module Paths {

  const Sep: char := '/'

  /** `name` is appended to `dir` with one separator between them; an absolute
      `name` replaces `dir`, and an empty `dir` or one ending in a separator
      gets no extra separator. */
  function Join(dir: string, name: string): string
  {
    if name != [] && name[0] == Sep then name
    else if dir == [] || dir[|dir| - 1] == Sep then dir + name
    else dir + [Sep] + name
  }

  /** The name ends the joined path; a relative name follows the directory,
      with or without one separator between them. */
  lemma JoinShape(dir: string, name: string)
    ensures IsSuffix(name, Join(dir, name))
    ensures name != [] && name[0] != Sep ==>
      Join(dir, name) == dir + name || Join(dir, name) == dir + [Sep] + name
  {
    var r := Join(dir, name);
    if name != [] && name[0] == Sep {
    } else if dir == [] || dir[|dir| - 1] == Sep {
      assert r[|dir|..] == name;
    } else {
      assert r[|dir| + 1..] == name;
    }
  }

  predicate IsSuffix(s: string, t: string) {
    |s| <= |t| && t[|t| - |s|..] == s
  }

  /** Equal joins under one directory force one name to end the other. */
  lemma JoinSameImpliesSuffix(dir: string, a: string, b: string)
    ensures Join(dir, a) == Join(dir, b) ==> IsSuffix(a, b) || IsSuffix(b, a)
  {
    var r, s := Join(dir, a), Join(dir, b);
    JoinShape(dir, a);
    JoinShape(dir, b);
    if |a| <= |b| {
      assert s[|s| - |b|..][|b| - |a|..] == s[|s| - |a|..];
    } else {
      assert r[|r| - |a|..][|a| - |b|..] == r[|r| - |b|..];
    }
  }

  /** Two names neither of which ends the other join to different paths under
      every directory. */
  lemma JoinDistinguishesNames(dir: string, a: string, b: string)
    requires !IsSuffix(a, b) && !IsSuffix(b, a)
    ensures Join(dir, a) != Join(dir, b)
  {
    JoinSameImpliesSuffix(dir, a, b);
  }
}
