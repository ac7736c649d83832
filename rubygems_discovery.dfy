/** A model of DeploySpec::RubygemsDiscovery: a project with a `*.gemspec`
    file at its root is deployed by checking the gem's version tag and
    releasing the gem; any other project falls through to the next
    discovery strategy.

    The directory glob is replaced by the list of paths it matched, and the
    next strategy (`super`) by the value it would return. Ruby's nil is
    None; an array, empty or not, is a true value for `||`. */
module RubygemsDiscovery {

  datatype Option<T> = None | Some(value: T)

  type Path = string

  /** Deploy steps: the shell commands of a deploy, in order. */
  type Steps = seq<string>

  const TagCheckPrefix: string := "assert-gem-version-tag "
  const ReleaseCommand: string := "bundle exec rake release"

  /** `gemspec`: the first path the glob matched, nil when it matched none. */
  function Gemspec(glob: seq<Path>): (r: Option<Path>)
    ensures r.None? <==> glob == []
    ensures r.Some? ==> r.value == glob[0] && r.value in glob
  {
    if glob == [] then None else Some(glob[0])
  }

  /** `gem?`: whether there is a gemspec. */
  predicate IsGem(glob: seq<Path>): (b: bool)
    ensures b <==> glob != []
  {
    Gemspec(glob).Some?
  }

  /** String interpolation of a path that may be nil: nil interpolates as
      the empty string. */
  function Interpolate(p: Option<Path>): string
  {
    match p
    case None => ""
    case Some(s) => s
  }

  /** `publish_gem`: check the version tag of the gemspec, then release. */
  function PublishGem(glob: seq<Path>): (steps: Steps)
    ensures |steps| == 2 && steps[1] == ReleaseCommand
    ensures IsGem(glob) ==> TaggedGemspec(steps[0]) == Some(glob[0])
  {
    [TagCheckPrefix + Interpolate(Gemspec(glob)), ReleaseCommand]
  }

  /** The gemspec a tag-check step names, if the step is a tag check. */
  function TaggedGemspec(step: string): Option<Path>
  {
    if |TagCheckPrefix| <= |step| && step[..|TagCheckPrefix|] == TagCheckPrefix
    then Some(step[|TagCheckPrefix|..])
    else None
  }

  /** `discover_gem`: the gem steps when there is a gemspec, nil otherwise. */
  function DiscoverGem(glob: seq<Path>): (r: Option<Steps>)
    ensures r.Some? <==> glob != []
    ensures r.Some? ==> r.value == PublishGem(glob) && r.value != []
  {
    if IsGem(glob) then Some(PublishGem(glob)) else None
  }

  /** `discover_deploy_steps`: `discover_gem || super`, where fallback is
      what the next strategy returns. */
  function DiscoverDeploySteps(glob: seq<Path>, fallback: Option<Steps>): (r: Option<Steps>)
    ensures glob != [] ==> r == Some([TagCheckPrefix + glob[0], ReleaseCommand])
    ensures glob == [] ==> r == fallback
  {
    match DiscoverGem(glob)
    case Some(steps) => Some(steps)
    case None => fallback
  }

  /** Whatever the glob matched, the gem steps hold exactly one tag check,
      the first step, and it names the interpolated gemspec. */
  lemma {:induction false} OneTagCheckFirst(glob: seq<Path>)
    ensures forall i :: 0 <= i < |PublishGem(glob)| ==>
              (TaggedGemspec(PublishGem(glob)[i]).Some? <==> i == 0)
    ensures TaggedGemspec(PublishGem(glob)[0]) == Some(Interpolate(Gemspec(glob)))
  {
    TagCheckRoundTrip(Interpolate(Gemspec(glob)));
    assert ReleaseCommand[0] == 'b' && TagCheckPrefix[0] == 'a';
    assert TaggedGemspec(ReleaseCommand) == None;
  }

  /** The tag-check step round-trips to the gemspec it was built from. */
  lemma TagCheckRoundTrip(p: Path)
    ensures TaggedGemspec(TagCheckPrefix + p) == Some(p)
  {
    assert (TagCheckPrefix + p)[..|TagCheckPrefix|] == TagCheckPrefix;
    assert (TagCheckPrefix + p)[|TagCheckPrefix|..] == p;
  }

  /** With a gemspec the fallback is never consulted: any two fallbacks give
      the same steps. Without one, the steps are the fallback, whatever it is. */
  lemma FallbackOnlyWithoutGem(glob: seq<Path>, f1: Option<Steps>, f2: Option<Steps>)
    ensures (DiscoverDeploySteps(glob, f1) == DiscoverDeploySteps(glob, f2)) <==> (glob != [] || f1 == f2)
  {
  }
}
