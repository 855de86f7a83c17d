/** What the MJPEG video feed (generate_video_frames in api/routes.py) draws
    on a camera frame: every fifth face landmark as a dot, a padded bounding
    box clamped to the frame with a "Face Detected" label above it, or a
    "No Face Detected" warning near the centre when no face was found. */
module VideoFeed {
  import opened Common
  import opened Session

  /** Pixels added on each side of the landmarks' extent. */
  const Padding := 20

  function Max(a: int, b: int): int {
    if a >= b then a else b
  }

  function Min(a: int, b: int): int {
    if a <= b then a else b
  }

  /** The smallest element of a non-empty sequence. */
  function MinOf(s: seq<int>): (m: int)
    requires |s| > 0
    ensures forall i :: 0 <= i < |s| ==> m <= s[i]
    ensures exists i :: 0 <= i < |s| && m == s[i]
  {
    if |s| == 1 then s[0]
    else
      var t := MinOf(s[1..]);
      assert forall i :: 1 <= i < |s| ==> s[1..][i - 1] == s[i];
      if s[0] <= t then s[0] else t
  }

  /** The largest element of a non-empty sequence. */
  function MaxOf(s: seq<int>): (m: int)
    requires |s| > 0
    ensures forall i :: 0 <= i < |s| ==> s[i] <= m
    ensures exists i :: 0 <= i < |s| && m == s[i]
  {
    if |s| == 1 then s[0]
    else
      var t := MaxOf(s[1..]);
      assert forall i :: 1 <= i < |s| ==> s[1..][i - 1] == s[i];
      if s[0] >= t then s[0] else t
  }

  function Xs(landmarks: seq<(int, int)>): (xs: seq<int>)
    ensures |xs| == |landmarks| && forall i :: 0 <= i < |xs| ==> xs[i] == landmarks[i].0
  {
    seq(|landmarks|, i requires 0 <= i < |landmarks| => landmarks[i].0)
  }

  function Ys(landmarks: seq<(int, int)>): (ys: seq<int>)
    ensures |ys| == |landmarks| && forall i :: 0 <= i < |ys| ==> ys[i] == landmarks[i].1
  {
    seq(|landmarks|, i requires 0 <= i < |landmarks| => landmarks[i].1)
  }

  /** Corners (xMin, yMin) and (xMax, yMax) of the drawn rectangle. */
  datatype Box = Box(xMin: int, yMin: int, xMax: int, yMax: int)

  /** The landmarks' extent grown by Padding on every side and clamped to a
      width x height frame. */
  function FaceBox(landmarks: seq<(int, int)>, width: nat, height: nat): (b: Box)
    requires |landmarks| > 0
    ensures 0 <= b.xMin && 0 <= b.yMin && b.xMax <= width && b.yMax <= height
  {
    var xs, ys := Xs(landmarks), Ys(landmarks);
    Box(Max(0, MinOf(xs) - Padding), Max(0, MinOf(ys) - Padding),
        Min(width, MaxOf(xs) + Padding), Min(height, MaxOf(ys) + Padding))
  }

  /** Each edge of the box is the landmark nearest to it, moved outwards by
      Padding and stopped at the frame border: no landmark's padded position
      lies beyond an edge, and some landmark's lies on it. */
  lemma FaceBoxIsPaddedExtent(landmarks: seq<(int, int)>, width: nat, height: nat)
    requires |landmarks| > 0
    ensures var b := FaceBox(landmarks, width, height);
      forall i :: 0 <= i < |landmarks| ==>
        && b.xMin <= Max(0, landmarks[i].0 - Padding) && Min(width, landmarks[i].0 + Padding) <= b.xMax
        && b.yMin <= Max(0, landmarks[i].1 - Padding) && Min(height, landmarks[i].1 + Padding) <= b.yMax
    ensures var b := FaceBox(landmarks, width, height);
      && (exists i :: 0 <= i < |landmarks| && b.xMin == Max(0, landmarks[i].0 - Padding))
      && (exists i :: 0 <= i < |landmarks| && b.xMax == Min(width, landmarks[i].0 + Padding))
      && (exists i :: 0 <= i < |landmarks| && b.yMin == Max(0, landmarks[i].1 - Padding))
      && (exists i :: 0 <= i < |landmarks| && b.yMax == Min(height, landmarks[i].1 + Padding))
  {
    var xs, ys := Xs(landmarks), Ys(landmarks);
    var loX, loY, hiX, hiY := MinOf(xs), MinOf(ys), MaxOf(xs), MaxOf(ys);
  }

  predicate InFrame(p: (int, int), width: nat, height: nat) {
    0 <= p.0 <= width && 0 <= p.1 <= height
  }

  predicate Inside(p: (int, int), b: Box) {
    b.xMin <= p.0 <= b.xMax && b.yMin <= p.1 <= b.yMax
  }

  /** Every landmark inside the frame lies inside the drawn box, so the box
      is a proper rectangle as soon as one landmark is visible. */
  lemma FaceBoxContainsVisibleLandmarks(landmarks: seq<(int, int)>, width: nat, height: nat, i: int)
    requires 0 <= i < |landmarks| && InFrame(landmarks[i], width, height)
    ensures Inside(landmarks[i], FaceBox(landmarks, width, height))
    ensures var b := FaceBox(landmarks, width, height); b.xMin <= b.xMax && b.yMin <= b.yMax
  {
    var b := FaceBox(landmarks, width, height);
    FaceBoxIsPaddedExtent(landmarks, width, height);
    assert b.xMin <= Max(0, landmarks[i].0 - Padding) <= landmarks[i].0;
    assert landmarks[i].0 <= Min(width, landmarks[i].0 + Padding) <= b.xMax;
  }

  /** landmarks[::5]: the landmarks at indices 0, 5, 10, ... */
  function EveryFifth(landmarks: seq<(int, int)>): (r: seq<(int, int)>)
    ensures forall i :: 0 <= i < |r| ==> 5 * i < |landmarks| && r[i] == landmarks[5 * i]
    decreases |landmarks|
  {
    if |landmarks| <= 5 then (if |landmarks| == 0 then [] else [landmarks[0]])
    else
      var rest := EveryFifth(landmarks[5..]);
      assert forall i :: 1 <= i < |rest| + 1 ==> ([landmarks[0]] + rest)[i] == rest[i - 1];
      [landmarks[0]] + rest
  }

  /** One landmark in five is kept, the first one included. */
  lemma {:induction false} EveryFifthLength(landmarks: seq<(int, int)>)
    ensures |EveryFifth(landmarks)| == (|landmarks| + 4) / 5
    decreases |landmarks|
  {
    if |landmarks| > 5 {
      EveryFifthLength(landmarks[5..]);
    }
  }

  /** What is drawn on one frame before it is JPEG-encoded. */
  datatype Overlay =
    | FaceOverlay(dots: seq<(int, int)>, box: Box, labelAt: (int, int))
    | NoFaceWarning(at: (int, int))
    | Nothing

  /** The overlay of a detected face: every fifth landmark as a dot and the
      padded box, labelled 10 pixels above its top-left corner. */
  function FaceOverlayFor(landmarks: seq<(int, int)>, width: nat, height: nat): (o: Overlay)
    requires |landmarks| > 0
    ensures o.FaceOverlay?
  {
    var b := FaceBox(landmarks, width, height);
    FaceOverlay(EveryFifth(landmarks), b, (b.xMin, b.yMin - 10))
  }

  /** The drawing decision for a width x height frame and the detector output
      stored beside it: a warning when no face was detected, nothing for a
      face without landmarks, the face overlay otherwise. */
  function OverlayFor(rois: Option<FaceRois>, width: nat, height: nat): (o: Overlay)
    ensures o.NoFaceWarning? <==> rois.None? || !rois.value.faceDetected
    ensures o.NoFaceWarning? ==> o.at == (width / 2 - 150, height / 2)
    ensures o.Nothing? <==> rois.Some? && rois.value.faceDetected && rois.value.landmarks == []
    ensures o.FaceOverlay? ==>
      && rois.Some? && rois.value.landmarks != []
      && o == FaceOverlayFor(rois.value.landmarks, width, height)
  {
    match rois
    case None => NoFaceWarning((width / 2 - 150, height / 2))
    case Some(r) =>
      if !r.faceDetected then NoFaceWarning((width / 2 - 150, height / 2))
      else if r.landmarks == [] then Nothing
      else FaceOverlayFor(r.landmarks, width, height)
  }

  /** A face overlay draws every fifth landmark, each dot being a landmark,
      the face box with its label 10 pixels above the top-left corner, and
      every visible landmark inside that box. */
  lemma OverlayDrawsLandmarks(rois: Option<FaceRois>, width: nat, height: nat)
    requires OverlayFor(rois, width, height).FaceOverlay?
    ensures var o, l := OverlayFor(rois, width, height), rois.value.landmarks;
      && o.dots == EveryFifth(l) && |o.dots| == (|l| + 4) / 5
      && (forall k :: 0 <= k < |o.dots| ==> o.dots[k] in l)
      && o.box == FaceBox(l, width, height)
      && o.labelAt == (o.box.xMin, o.box.yMin - 10)
      && (forall i :: 0 <= i < |l| && InFrame(l[i], width, height) ==> Inside(l[i], o.box))
  {
    var l := rois.value.landmarks;
    var b := FaceBox(l, width, height);
    assert OverlayFor(rois, width, height) == FaceOverlay(EveryFifth(l), b, (b.xMin, b.yMin - 10));
    EveryFifthLength(l);
    var dots := EveryFifth(l);
    forall k | 0 <= k < |dots|
      ensures dots[k] in l
    {
      assert dots[k] == l[5 * k];
    }
    forall i | 0 <= i < |l| && InFrame(l[i], width, height)
      ensures Inside(l[i], FaceBox(l, width, height))
    {
      FaceBoxContainsVisibleLandmarks(l, width, height, i);
    }
  }
}
