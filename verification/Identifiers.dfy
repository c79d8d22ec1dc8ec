/** Identifiers, repository paths and digests. */
module Identifiers {

  /** SHA-256 as a free function: different bytes, different digests. */
  datatype Sha = Sha256(bytes: string)

  predicate Upper(c: char) { 'A' <= c <= 'Z' || '0' <= c <= '9' }

  predicate Alphanumeric(c: char) { Upper(c) || 'a' <= c <= 'z' }

  predicate Punctuation(c: char) { c == '_' || c == '.' || c == '-' }

  /** `[A-Z0-9][A-Z0-9_.-]{0,127}` */
  predicate CodingSafeId(s: string) {
    && 1 <= |s| <= 128
    && Upper(s[0])
    && forall i :: 1 <= i < |s| ==> Upper(s[i]) || Punctuation(s[i])
  }

  /** `[A-Za-z0-9][A-Za-z0-9_.-]{0,127}` */
  predicate SafeId(s: string) {
    && 1 <= |s| <= 128
    && Alphanumeric(s[0])
    && forall i :: 1 <= i < |s| ==> Alphanumeric(s[i]) || Punctuation(s[i])
  }

  predicate Before(s: string, t: string) {
    if t == [] then false
    else if s == [] then true
    else s[0] < t[0] || (s[0] == t[0] && Before(s[1..], t[1..]))
  }

  /** The list is `sorted(set(list))`: strictly increasing. */
  predicate SortedUnique(paths: seq<string>) {
    forall i, j :: 0 <= i < j < |paths| ==> Before(paths[i], paths[j])
  }

  /** The list is `sorted(s)`. */
  predicate SortedListing(paths: seq<string>, s: set<string>) {
    SortedUnique(paths) && (set p | p in paths) == s
  }

  /** The part of a path before its first slash, and whether a slash follows. */
  function FirstPart(path: string): string {
    if path == [] || path[0] == '/' then [] else [path[0]] + FirstPart(path[1..])
  }

  predicate SafeParts(path: string)
    decreases |path|
  {
    var part := FirstPart(path);
    && part != "" && part != "." && part != ".."
    && (|part| >= |path| || SafeParts(path[|part| + 1..]))
  }

  predicate DrivePrefixed(path: string) {
    |path| >= 2 && Alphanumeric(path[0]) && !('0' <= path[0] <= '9') && path[1] == ':'
  }

  predicate SafeRelativePath(path: string) {
    path != "" && '\\' !in path && path[0] != '/' && !DrivePrefixed(path) && SafeParts(path)
  }

  predicate SafePaths(paths: seq<string>) {
    SortedUnique(paths) && forall i :: 0 <= i < |paths| ==> SafeRelativePath(paths[i])
  }
}
