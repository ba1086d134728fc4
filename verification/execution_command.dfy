/**
 * The agent's execution command: a command whose identity is its manifest.
 * Two commands are equal exactly when their manifests are, and the hash code is
 * the manifest's hash, so equal commands collide in hashed collections as Java's
 * equals/hashCode contract demands.
 */
module Agent {

  class ExecutionCommand {
    /** The manifest the agent executes; a new command starts with the empty one. */
    var manifest: string

    constructor()
      ensures manifest == ""
    {
      manifest := "";
    }

    function GetManifest(): (m: string)
      reads this
      ensures m == manifest
    {
      manifest
    }

    method SetManifest(m: string)
      modifies this
      ensures manifest == m
    {
      manifest := m;
    }

    /** equals(Object): false for null and for any object that is not an execution command, otherwise manifest equality. */
    function Equals(other: object?): (b: bool)
      reads this, other
      ensures b ==> other != null && other is ExecutionCommand
      ensures other == this ==> b
    {
      other is ExecutionCommand && manifest == (other as ExecutionCommand).manifest
    }

    /** hashCode(): the hash of the manifest, for a string hash supplied by the caller. */
    function HashCode(hash: string -> int): (h: int)
      reads this
      ensures h == hash(GetManifest())
    {
      hash(manifest)
    }
  }

  /** A command is never equal to null. */
  lemma NotEqualToNull(c: ExecutionCommand)
    ensures !c.Equals(null)
  {
  }

  /** A command is never equal to an object of another class. */
  lemma NotEqualToOtherClass(c: ExecutionCommand, other: object)
    requires !(other is ExecutionCommand)
    ensures !c.Equals(other)
  {
  }

  /** Equality is by manifest, not by identity: two distinct commands with one manifest are equal, and equal commands share a manifest. */
  lemma EqualsIsManifestEquality(a: ExecutionCommand, b: ExecutionCommand)
    ensures a.Equals(b) <==> a.GetManifest() == b.GetManifest()
  {
  }

  lemma EqualsSymmetric(a: ExecutionCommand, other: object?)
    ensures a.Equals(other) ==> other is ExecutionCommand && (other as ExecutionCommand).Equals(a)
  {
  }

  lemma EqualsTransitive(a: ExecutionCommand, b: ExecutionCommand, c: ExecutionCommand)
    requires a.Equals(b) && b.Equals(c)
    ensures a.Equals(c)
  {
  }

  /** Equal commands have equal hash codes, whatever the string hash. */
  lemma EqualCommandsHashAlike(a: ExecutionCommand, b: ExecutionCommand, hash: string -> int)
    requires a.Equals(b)
    ensures a.HashCode(hash) == b.HashCode(hash)
  {
  }

  /** A command takes the manifest it is given, equals another with that manifest and hashes like it. */
  method SetManifestScenario(m: string) returns (c: ExecutionCommand, d: ExecutionCommand)
    ensures fresh(c) && fresh(d) && c != d
    ensures c.GetManifest() == m
    ensures c.Equals(d) && d.Equals(c)
    ensures forall hash: string -> int :: c.HashCode(hash) == d.HashCode(hash)
  {
    c := new ExecutionCommand();
    d := new ExecutionCommand();
    c.SetManifest(m);
    d.SetManifest(m);
  }
}
