/**
 * Apple Music's `PlaybackState`: four states with integer values, and `of`,
 * which reads a value back through a map built from the entries, defaulting
 * to `UNKNOWN`.
 */
module ApplePlaybackState {
  import opened Wrappers

  datatype PlaybackState = Unknown | Stopped | Playing | Paused {
    function Value(): int {
      match this
      case Unknown => -1
      case Stopped => 0
      case Playing => 1
      case Paused => 2
    }
  }

  /** `entries`, in declaration order. */
  const ENTRIES: seq<PlaybackState> := [Unknown, Stopped, Playing, Paused]

  /** `entries.associateBy { it.value }`: each value to the last entry that carries it. */
  function AssociateByValue(entries: seq<PlaybackState>): (m: map<int, PlaybackState>)
    ensures forall n :: n in m <==> exists s :: s in entries && s.Value() == n
    ensures forall n :: n in m ==> m[n].Value() == n
  {
    if entries == [] then map[]
    else
      var last := entries[|entries| - 1];
      var m' := AssociateByValue(entries[..|entries| - 1]);
      assert forall s :: s in entries <==> s in entries[..|entries| - 1] || s == last;
      m'[last.Value() := last]
  }

  const VALUE_MAP: map<int, PlaybackState> := AssociateByValue(ENTRIES)

  /** `of(n)`: the state with value `n`, `UNKNOWN` for any other integer. */
  function Of(n: int): (s: PlaybackState)
    ensures -1 <= n <= 2 ==> s.Value() == n
    ensures !(-1 <= n <= 2) ==> s == Unknown
  {
    assert -1 <= n <= 2 ==> ENTRIES[n + 1] in ENTRIES && ENTRIES[n + 1].Value() == n;
    if n in VALUE_MAP then VALUE_MAP[n] else Unknown
  }

  /** Reading a state's own value gives the state back. */
  lemma OfValue(s: PlaybackState)
    ensures Of(s.Value()) == s
  {
    assert s in ENTRIES;
    match s
    case Unknown =>
    case Stopped =>
    case Playing =>
    case Paused =>
  }

  /** Only the value 1 reads as `PLAYING`; every other integer, known or not, reads as something else. */
  lemma OfPlaying(n: int)
    ensures Of(n) == Playing <==> n == 1
  {
    if Of(n) == Playing {
      assert -1 <= n <= 2;
    } else if n == 1 {
      OfValue(Playing);
    }
  }
}
