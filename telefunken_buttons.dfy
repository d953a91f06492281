/**
 * The bank of five front buttons of the Telefunken conversion
 * (telefunken_buttons.py). The bank only stores the buttons it is given and
 * names them by position; it enforces no mutual exclusion between them.
 * Reading a position the sequence does not have raises IndexError, modelled
 * as None.
 */
module TeleButtons {
  import opened Wrappers

  const OFF_INDEX: nat := 0
  const FIP_INDEX: nat := 1
  const SPOTIFY_INDEX: nat := 2
  const UNUSED_INDEX: nat := 3
  const DISCO_INDEX: nat := 4

  datatype TeleButtons<T> = TeleButtons(buttons: seq<T>)
  {
    /** The button at position `k`, or None (IndexError) past the end. */
    function At(k: nat): (r: Option<T>)
      ensures r.Some? <==> k < |buttons|
      ensures r.Some? ==> r.value == buttons[k]
    {
      if k < |buttons| then Some(buttons[k]) else None
    }

    /** The leftmost button: the shutdown key. */
    function Off(): Option<T> { At(OFF_INDEX) }

    function Fip(): Option<T> { At(FIP_INDEX) }

    function Spotify(): Option<T> { At(SPOTIFY_INDEX) }

    function Unused(): Option<T> { At(UNUSED_INDEX) }

    /** The last button: the disco light key. */
    function Disco(): Option<T> { At(DISCO_INDEX) }
  }

  /**
   * A bank built from at least five buttons names its first five in order,
   * whatever follows them; a shorter bank fails on the missing names and
   * on no others.
   */
  lemma NamesAreFirstFive<T>(b: seq<T>)
    ensures |b| >= 5 ==>
      var t := TeleButtons(b);
      [t.Off().value, t.Fip().value, t.Spotify().value, t.Unused().value, t.Disco().value] == b[..5]
    ensures TeleButtons(b).Off().None? <==> |b| <= OFF_INDEX
    ensures TeleButtons(b).Disco().None? <==> |b| <= DISCO_INDEX
    ensures TeleButtons(b).Spotify().None? <==> |b| <= SPOTIFY_INDEX
  {
  }
}
