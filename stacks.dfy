/** Whether an environment has been deployed: some deployed stack carries the
    environment's name in its provenance tag. */
module Stacks {
  import opened Wrappers
  import opened Environments

  /** The provenance tag of one stack's (already unrolled) tag map, if any. */
  function Provenance(tags: map<string, string>): Option<string> {
    if ProvenanceTag in tags then Some(tags[ProvenanceTag]) else None
  }

  /** The `in_cf` property over the tag maps of the deployed stacks. */
  function InCf(name: string, stacks: seq<map<string, string>>): (r: bool)
    ensures r <==> exists i :: 0 <= i < |stacks| && ProvenanceTag in stacks[i] && stacks[i][ProvenanceTag] == name
  {
    var found := set i | 0 <= i < |stacks| :: Provenance(stacks[i]);
    assert forall i :: 0 <= i < |stacks| ==> Provenance(stacks[i]) in found;
    Some(name) in found
  }

  /** Deploying one more stack tagged with the name makes the environment
      deployed; stacks without a provenance tag never do. */
  lemma InCfMonotone(name: string, stacks: seq<map<string, string>>, tags: map<string, string>)
    ensures InCf(name, stacks) ==> InCf(name, stacks + [tags])
    ensures Provenance(tags) == Some(name) ==> InCf(name, stacks + [tags])
    ensures ProvenanceTag !in tags ==> InCf(name, stacks + [tags]) == InCf(name, stacks)
  {
    var more := stacks + [tags];
    assert more[|stacks|] == tags;
    assert forall i :: 0 <= i < |stacks| ==> more[i] == stacks[i];
  }
}
