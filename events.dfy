/**
 * How the controller reads one serial line: the recognition module frames a
 * detection with the marker `name` and names the face it saw (`face1` ...
 * `face5`); an operator types `config` to start reconfiguration.
 */
module Events {
  import opened Text

  /** The reading of one line. */
  datatype Event = Arrival(face: nat) | UnknownArrival | ReconfigureRequest | Noise

  const NAME_MARKER := "name"
  const CONFIG_COMMAND := "config"

  /** The one face the detector watches for. */
  const TARGET_FACE := 1

  /** The identity tag of face `n`. */
  function FaceTag(n: nat): (tag: string)
    requires 1 <= n <= 5
    ensures |tag| == 5 && tag[..4] == "face" && tag[4] == DigitChar(n)
  {
    match n
    case 1 => "face1"
    case 2 => "face2"
    case 3 => "face3"
    case 4 => "face4"
    case _ => "face5"
  }

  /** The notification text for the arrival of face `n`. */
  function ArrivalMessage(n: nat): (m: string)
    requires 1 <= n <= 5
    ensures |m| > 3 && m[|m| - 3..] == "が来た"
    ensures n >= 2 ==> m[..2] == [DigitChar(n), '番']
  {
    match n
    case 1 => "奴が来た"
    case 2 => "2番が来た"
    case 3 => "3番が来た"
    case 4 => "4番が来た"
    case _ => "5番が来た"
  }

  /** Every face has its own message: the table is one-to-one. */
  lemma ArrivalMessagesDistinct(i: nat, j: nat)
    requires 1 <= i <= 5 && 1 <= j <= 5
    ensures ArrivalMessage(i) == ArrivalMessage(j) <==> i == j
  {
    var m, n := ArrivalMessage(i), ArrivalMessage(j);
    if i != j {
      assert |m| != |n| || m[0] != n[0];
    }
  }

  /**
   * Detector mode: the line is trimmed first; a framed detection is an
   * arrival only when it names the target face; the command is recognised
   * only on a line without the marker.
   */
  function DetectorEvent(line: string): (e: Event)
    ensures e.Arrival? ==> e.face == TARGET_FACE
    ensures e.Arrival? || e == UnknownArrival <==> Contains(Trim(line), NAME_MARKER)
    ensures e == ReconfigureRequest ==> Trim(line) == CONFIG_COMMAND
    ensures e == Noise ==> Trim(line) != CONFIG_COMMAND
  {
    var data := Trim(line);
    if Contains(data, NAME_MARKER) then
      if Contains(data, FaceTag(TARGET_FACE)) then Arrival(TARGET_FACE) else UnknownArrival
    else if data == CONFIG_COMMAND then ReconfigureRequest
    else Noise
  }

  /**
   * Intercom mode, on a line that was already waiting: not trimmed, the tags
   * are tried in the order face2, face3, face4, face5, and nothing else is
   * recognised here (in particular not the command).
   */
  function IntercomEvent(data: string): (e: Event)
    ensures e != ReconfigureRequest
    ensures e.Arrival? ==> 2 <= e.face <= 5 && Contains(data, FaceTag(e.face))
    ensures e == Noise <==> !Contains(data, NAME_MARKER)
  {
    if Contains(data, NAME_MARKER) then
      if Contains(data, FaceTag(2)) then Arrival(2)
      else if Contains(data, FaceTag(3)) then Arrival(3)
      else if Contains(data, FaceTag(4)) then Arrival(4)
      else if Contains(data, FaceTag(5)) then Arrival(5)
      else UnknownArrival
    else Noise
  }

  /** The intercom announces face `k` exactly when the line is framed, names `k`, and names no earlier visitor. */
  lemma IntercomFirstMatchWins(data: string, k: nat)
    requires 2 <= k <= 5
    ensures IntercomEvent(data) == Arrival(k) <==>
      && Contains(data, NAME_MARKER)
      && Contains(data, FaceTag(k))
      && forall j :: 2 <= j < k ==> !Contains(data, FaceTag(j))
  {
    if IntercomEvent(data) == Arrival(k) {
      forall j | 2 <= j < k
        ensures !Contains(data, FaceTag(j))
      {
        assert j == 2 || j == 3 || j == 4;
      }
    }
  }

  /** An intercom line reads as an unknown arrival exactly when it is framed and names none of the four visitors. */
  lemma IntercomEventRange(data: string)
    ensures IntercomEvent(data) == UnknownArrival <==>
      Contains(data, NAME_MARKER) && forall j :: 2 <= j <= 5 ==> !Contains(data, FaceTag(j))
  {
    if Contains(data, NAME_MARKER) && IntercomEvent(data) != UnknownArrival {
      var k := IntercomEvent(data).face;
      assert Contains(data, FaceTag(k));
    }
  }

  /** A trimmed line reads as the command exactly when it is `config`: the marker test never gets in the way. */
  lemma DetectorReconfigureIff(line: string)
    ensures DetectorEvent(line) == ReconfigureRequest <==> Trim(line) == CONFIG_COMMAND
  {
    forall i | 0 <= i && i + |NAME_MARKER| <= |CONFIG_COMMAND|
      ensures !OccursAt(CONFIG_COMMAND, NAME_MARKER, i)
    {
      assert CONFIG_COMMAND[i..i + 4][1] != NAME_MARKER[1];
    }
    ContainsIffOccurs(CONFIG_COMMAND, NAME_MARKER);
  }

  /** An occurrence of such a tag in a line lies inside the part `Trim` keeps. */
  lemma OccurrenceSurvivesTrim(s: string, tag: string, i: int)
    requires |tag| > 0 && !IsSpace(tag[0]) && !IsSpace(tag[|tag| - 1])
    requires OccursAt(s, tag, i)
    ensures OccursAt(Trim(s), tag, i - TrimStart(s))
  {
    var a := TrimStart(s);
    var b := SpaceRunStart(s, a, |s|);
    assert Trim(s) == s[a..b];
    assert s[i] == tag[0] && s[i + |tag| - 1] == tag[|tag| - 1];
    assert a <= i;
    assert i + |tag| <= b;
    var t := Trim(s);
    forall k | 0 <= k < |tag|
      ensures t[i - a + k] == tag[k]
    {
      assert s[i..i + |tag|][k] == s[i + k];
    }
    assert t[i - a..i - a + |tag|] == tag;
  }

  /** An occurrence in the trimmed line is one in the line itself. */
  lemma OccurrenceBeforeTrim(s: string, tag: string, j: int)
    requires OccursAt(Trim(s), tag, j)
    ensures OccursAt(s, tag, TrimStart(s) + j)
  {
    var a := TrimStart(s);
    var b := SpaceRunStart(s, a, |s|);
    assert Trim(s) == s[a..b];
    assert s[a..b][j..j + |tag|] == s[a + j..a + j + |tag|];
  }

  /**
   * Trimming never changes whether a line holds a tag without surrounding
   * white space, such as the marker or a face tag; so in detector mode the
   * trim matters only to the command.
   */
  lemma TrimKeepsTag(s: string, tag: string)
    requires |tag| > 0 && !IsSpace(tag[0]) && !IsSpace(tag[|tag| - 1])
    ensures Contains(Trim(s), tag) <==> Contains(s, tag)
  {
    ContainsIffOccurs(s, tag);
    ContainsIffOccurs(Trim(s), tag);
    if Contains(s, tag) {
      var i :| OccursAt(s, tag, i);
      OccurrenceSurvivesTrim(s, tag, i);
    }
    if Contains(Trim(s), tag) {
      var j :| OccursAt(Trim(s), tag, j);
      OccurrenceBeforeTrim(s, tag, j);
    }
  }

  /** Hence the detector's arrivals are decided by the raw line, as in the intercom. */
  lemma DetectorArrivalOnRawLine(line: string)
    ensures DetectorEvent(line) == Arrival(TARGET_FACE) <==>
      Contains(line, NAME_MARKER) && Contains(line, FaceTag(TARGET_FACE))
    ensures DetectorEvent(line) == UnknownArrival <==>
      Contains(line, NAME_MARKER) && !Contains(line, FaceTag(TARGET_FACE))
  {
    TrimKeepsTag(line, NAME_MARKER);
    TrimKeepsTag(line, FaceTag(TARGET_FACE));
  }
}
