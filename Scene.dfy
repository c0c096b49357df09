/** The scene coordinator: it creates one sound per entry of the scene's
    configuration, counts the sounds whose loading has finished (successfully
    or not), and once every sound is accounted for starts them all and feeds
    them the listener's current position and heading. */
module Scene {
  import opened Spatial
  import opened SoundSource

  /** What the viewer currently shows: the listener's position and heading. */
  datatype View = View(position: LatLng, heading: real)

  /** How many times playSounds has run after `k` calls of onSoundLoaded when
      the counter started at `n`: the k-th call leaves n - k in the counter and
      runs playSounds when that is at most zero. */
  function PlayRuns(n: nat, k: nat): (r: nat)
    ensures r <= k
    ensures k <= n ==> r == (if k == n && n > 0 then 1 else if n == 0 then k else 0)
  {
    if k == 0 then 0 else PlayRuns(n, k - 1) + (if n - k <= 0 then 1 else 0)
  }

  lemma {:induction false} PlayRunsClosedForm(n: nat, k: nat)
    ensures PlayRuns(n, k) == if k < n then 0 else if n == 0 then k else k - n + 1
  {
    if k > 0 {
      PlayRunsClosedForm(n, k - 1);
    }
  }

  /** With n >= 1 sounds, playSounds has run iff at least n load events arrived,
      and it runs exactly once by the n-th; with no sounds, the single manual
      call already runs it. */
  lemma PlayStartsOnLastLoad(n: nat, k: nat)
    ensures n >= 1 ==> (PlayRuns(n, k) >= 1 <==> k >= n)
    ensures n >= 1 ==> PlayRuns(n, n - 1) == 0 && PlayRuns(n, n) == 1
    ensures PlayRuns(0, 1) == 1
  {
    PlayRunsClosedForm(n, k);
    PlayRunsClosedForm(n, n);
    if n >= 1 {
      PlayRunsClosedForm(n, n - 1);
    }
    PlayRunsClosedForm(0, 1);
  }

  predicate Distinct(sounds: seq<Sound>) {
    forall i, j :: 0 <= i < j < |sounds| ==> sounds[i] != sounds[j]
  }

  /** Every sound whose cached position differs from the view's is at a nonzero
      distance from it, so its volume can be computed. */
  ghost predicate CanHear(sounds: seq<Sound>, view: View, geo: Geometry)
    reads sounds
  {
    forall i :: 0 <= i < |sounds| ==>
      (Moved(sounds[i].State(), view.position) ==> DistanceTo(sounds[i].data, view.position, geo) != 0.0)
  }

  /** What playSounds does to one sound: play it, then apply the current view. */
  function Started(s: SoundState, data: SoundData, view: View, geo: Geometry): SoundState
    requires Moved(s, view.position) ==> DistanceTo(data, view.position, geo) != 0.0
  {
    AfterMovement(AfterPlay(s, data), data, view.position, view.heading, geo)
  }

  class Sosv {
    var sounds: seq<Sound>
    /** Sounds not yet accounted for. */
    var soundCount: int
    /** Calls of onSoundLoaded so far, the manual one for an empty scene included. */
    ghost var loadEvents: nat
    /** Times playSounds has run. */
    ghost var playRuns: nat
    ghost var jsonLoaded: bool

    ghost predicate SoundsValid()
      reads this, sounds
    {
      Distinct(sounds) && forall i :: 0 <= i < |sounds| ==> sounds[i].Valid()
    }

    ghost predicate Valid()
      reads this, sounds
    {
      SoundsValid()
      && soundCount == |sounds| - loadEvents
      && playRuns == PlayRuns(|sounds|, loadEvents)
      && (!jsonLoaded ==> sounds == [] && loadEvents == 0)
    }

    constructor ()
      ensures Valid() && !jsonLoaded
      ensures sounds == [] && soundCount == 0 && playRuns == 0
    {
      sounds := [];
      soundCount := 0;
      loadEvents, playRuns := 0, 0;
      jsonLoaded := false;
    }

    /** The scene configuration arrived: set the counter to the number of
        sounds, create them, and with no sounds at all count one event at once. */
    method OnJsonLoaded(configs: seq<SoundData>, view: View, geo: Geometry)
      requires Valid() && !jsonLoaded
      modifies this
      ensures Valid() && jsonLoaded
      ensures |sounds| == |configs|
      ensures forall i :: 0 <= i < |sounds| ==>
        fresh(sounds[i]) && sounds[i].data == configs[i] && sounds[i].State() == Initial()
      ensures soundCount == if |configs| == 0 then -1 else |configs|
      ensures playRuns == if |configs| == 0 then 1 else 0
    {
      soundCount := |configs|;
      LoadSounds(configs);
      forall i | 0 <= i < |sounds|
        ensures fresh(sounds[i]) && sounds[i].data == configs[i] && sounds[i].State() == Initial()
      {
        assert |old(sounds)| + i == i;
      }
      jsonLoaded := true;
      assert |sounds| == |configs| && loadEvents == 0 && playRuns == 0;
      if soundCount == 0 {
        assert sounds == [];
        OnSoundLoaded(view, geo);
        assert sounds == [];
      }
    }

    /** Creates one sound per configuration entry, in order, appending each. */
    method LoadSounds(configs: seq<SoundData>)
      requires SoundsValid()
      modifies this`sounds
      ensures SoundsValid()
      ensures |sounds| == |old(sounds)| + |configs| && sounds[..|old(sounds)|] == old(sounds)
      ensures forall i :: |old(sounds)| <= i < |sounds| ==>
        fresh(sounds[i]) && sounds[i].data == configs[i - |old(sounds)|] && sounds[i].State() == Initial()
    {
      var i := 0;
      while i < |configs|
        invariant 0 <= i <= |configs|
        invariant SoundsValid()
        invariant |sounds| == |old(sounds)| + i && sounds[..|old(sounds)|] == old(sounds)
        invariant forall k :: |old(sounds)| <= k < |sounds| ==>
          fresh(sounds[k]) && sounds[k].data == configs[k - |old(sounds)|] && sounds[k].State() == Initial()
      {
        var sound := new Sound(configs[i]);
        sounds := sounds + [sound];
        i := i + 1;
      }
    }

    /** A sound finished loading, or failed to: count it, and start everything
        once no sound is left unaccounted for. */
    method OnSoundLoaded(view: View, geo: Geometry)
      requires Valid() && jsonLoaded
      requires soundCount - 1 <= 0 ==> CanHear(sounds, view, geo)
      modifies this, sounds
      ensures Valid() && jsonLoaded
      ensures sounds == old(sounds)
      ensures soundCount == old(soundCount) - 1 && loadEvents == old(loadEvents) + 1
      ensures playRuns == old(playRuns) + (if soundCount <= 0 then 1 else 0)
      ensures soundCount > 0 ==>
        forall i :: 0 <= i < |sounds| ==> sounds[i].State() == old(sounds[i].State())
      ensures soundCount <= 0 ==>
        forall i :: 0 <= i < |sounds| ==>
          sounds[i].State() == Started(old(sounds[i].State()), sounds[i].data, view, geo)
    {
      soundCount := soundCount - 1;
      loadEvents := loadEvents + 1;
      if soundCount <= 0 {
        PlaySounds(view, geo);
      }
    }

    /** Starts every sound in order and applies the current view to each. */
    method PlaySounds(view: View, geo: Geometry)
      requires SoundsValid() && CanHear(sounds, view, geo)
      modifies this`playRuns, sounds
      ensures SoundsValid()
      ensures playRuns == old(playRuns) + 1
      ensures forall i :: 0 <= i < |sounds| ==>
        sounds[i].State() == Started(old(sounds[i].State()), sounds[i].data, view, geo)
    {
      var i := 0;
      while i < |sounds|
        invariant 0 <= i <= |sounds|
        invariant playRuns == old(playRuns)
        invariant SoundsValid()
        invariant forall j :: 0 <= j < i ==>
          sounds[j].State() == Started(old(sounds[j].State()), sounds[j].data, view, geo)
        invariant forall j :: i <= j < |sounds| ==> sounds[j].State() == old(sounds[j].State())
      {
        StartSound(i, view, geo);
        i := i + 1;
      }
      playRuns := playRuns + 1;
    }

    /** One round of playSounds' loop: play the i-th sound, then apply the view to it. */
    method StartSound(i: nat, view: View, geo: Geometry)
      requires SoundsValid() && i < |sounds|
      requires Moved(sounds[i].State(), view.position) ==> DistanceTo(sounds[i].data, view.position, geo) != 0.0
      modifies sounds[i]
      ensures SoundsValid()
      ensures sounds[i].State() == Started(old(sounds[i].State()), sounds[i].data, view, geo)
      ensures forall j :: 0 <= j < |sounds| && j != i ==> sounds[j].State() == old(sounds[j].State())
    {
      var sound := sounds[i];
      sound.PlaySound();
      sound.OnUserMovement(view.position, view.heading, geo);
    }
  }
}
