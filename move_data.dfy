/** The movement record (Assets/Scripts/Movement/MoveData.cs): 38 fields,
    an Equals that compares all of them, and a network serialisation that
    visits 35 of them in a fixed order. The two transforms and the view's
    default local position are never put on the wire, so a record read
    from the network keeps its own values for them. */
module Movement {
  import opened Geometry
  import opened Wrappers

  /** Identity of a scene Transform. */
  type TransformId = nat

  datatype MoveData = MoveData(
    playerTransform: Option<TransformId>,
    viewTransform: Option<TransformId>,
    viewTransformDefaultLocalPos: Vec3,
    origin: Vec3,
    viewAngles: Vec3,
    velocity: Vec3,
    forwardMove: real,
    sideMove: real,
    upMove: real,
    surfaceFriction: real,
    gravityFactor: real,
    walkFactor: real,
    verticalAxis: real,
    horizontalAxis: real,
    wishJump: bool,
    crouching: bool,
    sprinting: bool,
    slopeLimit: real,
    rigidbodyPushForce: real,
    defaultHeight: real,
    crouchingHeight: real,
    crouchingSpeed: real,
    toggleCrouch: bool,
    slidingEnabled: bool,
    laddersEnabled: bool,
    angledLaddersEnabled: bool,
    climbingLadder: bool,
    ladderNormal: Vec3,
    ladderDirection: Vec3,
    ladderClimbDir: Vec3,
    ladderVelocity: Vec3,
    underwater: bool,
    cameraUnderwater: bool,
    grounded: bool,
    groundedTemp: bool,
    fallingVelocity: real,
    useStepOffset: bool,
    stepOffset: real)

  /** The field initialisers: what a freshly constructed record holds. */
  function Fresh(): MoveData {
    MoveData(None, None, Zero, Zero, Zero, Zero, 0.0, 0.0, 0.0, 1.0, 1.0, 1.0, 0.0, 0.0, false, false, false, 45.0, 1.0, 2.0, 1.0, 10.0, false, false, false, false, false, Zero, Forward, Up, Zero, false, false, false, false, 0.0, false, 0.0)
  }

  /** A freshly constructed record has the documented defaults. */
  lemma FreshDefaults()
    ensures Fresh().surfaceFriction == 1.0 && Fresh().gravityFactor == 1.0 && Fresh().walkFactor == 1.0
    ensures Fresh().slopeLimit == 45.0 && Fresh().defaultHeight == 2.0 && Fresh().crouchingHeight == 1.0
    ensures Fresh().crouchingSpeed == 10.0 && Fresh().rigidbodyPushForce == 1.0
    ensures Fresh().ladderDirection == Forward && Fresh().ladderClimbDir == Up
    ensures Fresh().playerTransform.None? && Fresh().viewTransform.None?
    ensures !Fresh().wishJump && !Fresh().crouching && !Fresh().sprinting && !Fresh().toggleCrouch
    ensures !Fresh().slidingEnabled && !Fresh().laddersEnabled && !Fresh().angledLaddersEnabled
    ensures !Fresh().climbingLadder && !Fresh().underwater && !Fresh().cameraUnderwater
    ensures !Fresh().grounded && !Fresh().groundedTemp && !Fresh().useStepOffset
  {
  }

  /** Equals(MoveData other): false for null, otherwise every one of the 38
      fields compared (vectors component-wise, as Vector3.Equals does). */
  predicate Equals(a: MoveData, other: Option<MoveData>) {
    match other
    case None => false
    case Some(b) =>
      a.playerTransform == b.playerTransform &&
      a.viewTransform == b.viewTransform &&
      a.viewTransformDefaultLocalPos == b.viewTransformDefaultLocalPos &&
      a.origin == b.origin &&
      a.viewAngles == b.viewAngles &&
      a.velocity == b.velocity &&
      a.forwardMove == b.forwardMove &&
      a.sideMove == b.sideMove &&
      a.upMove == b.upMove &&
      a.surfaceFriction == b.surfaceFriction &&
      a.gravityFactor == b.gravityFactor &&
      a.walkFactor == b.walkFactor &&
      a.verticalAxis == b.verticalAxis &&
      a.horizontalAxis == b.horizontalAxis &&
      a.wishJump == b.wishJump &&
      a.crouching == b.crouching &&
      a.sprinting == b.sprinting &&
      a.slopeLimit == b.slopeLimit &&
      a.rigidbodyPushForce == b.rigidbodyPushForce &&
      a.defaultHeight == b.defaultHeight &&
      a.crouchingHeight == b.crouchingHeight &&
      a.crouchingSpeed == b.crouchingSpeed &&
      a.toggleCrouch == b.toggleCrouch &&
      a.slidingEnabled == b.slidingEnabled &&
      a.laddersEnabled == b.laddersEnabled &&
      a.angledLaddersEnabled == b.angledLaddersEnabled &&
      a.climbingLadder == b.climbingLadder &&
      a.ladderNormal == b.ladderNormal &&
      a.ladderDirection == b.ladderDirection &&
      a.ladderClimbDir == b.ladderClimbDir &&
      a.ladderVelocity == b.ladderVelocity &&
      a.underwater == b.underwater &&
      a.cameraUnderwater == b.cameraUnderwater &&
      a.grounded == b.grounded &&
      a.groundedTemp == b.groundedTemp &&
      a.fallingVelocity == b.fallingVelocity &&
      a.useStepOffset == b.useStepOffset &&
      a.stepOffset == b.stepOffset
  }

  /** Equals is false for null and is otherwise exactly record equality. */
  lemma EqualsIsEquality(a: MoveData, other: Option<MoveData>)
    ensures !Equals(a, None)
    ensures Equals(a, other) <==> other == Some(a)
  {
    if other.Some? && Equals(a, other) {
      var b := other.value;
      assert a == b;
    }
  }

  lemma EqualsSymmetric(a: MoveData, b: MoveData)
    ensures Equals(a, Some(b)) <==> Equals(b, Some(a))
  {
    EqualsIsEquality(a, Some(b));
    EqualsIsEquality(b, Some(a));
  }

  /** One value on the wire. */
  datatype WireValue = WVec(vec: Vec3) | WFloat(num: real) | WBool(flag: bool)

  /** The number of fields NetworkSerialize visits. */
  const WireFields := 35

  /** The i-th value NetworkSerialize writes: origin first, stepOffset last. */
  function WireField(m: MoveData, i: int): WireValue
    requires 0 <= i < WireFields
  {
    match i
    case 0 => WVec(m.origin)
    case 1 => WVec(m.viewAngles)
    case 2 => WVec(m.velocity)
    case 3 => WFloat(m.forwardMove)
    case 4 => WFloat(m.sideMove)
    case 5 => WFloat(m.upMove)
    case 6 => WFloat(m.surfaceFriction)
    case 7 => WFloat(m.gravityFactor)
    case 8 => WFloat(m.walkFactor)
    case 9 => WFloat(m.verticalAxis)
    case 10 => WFloat(m.horizontalAxis)
    case 11 => WBool(m.wishJump)
    case 12 => WBool(m.crouching)
    case 13 => WBool(m.sprinting)
    case 14 => WFloat(m.slopeLimit)
    case 15 => WFloat(m.rigidbodyPushForce)
    case 16 => WFloat(m.defaultHeight)
    case 17 => WFloat(m.crouchingHeight)
    case 18 => WFloat(m.crouchingSpeed)
    case 19 => WBool(m.toggleCrouch)
    case 20 => WBool(m.slidingEnabled)
    case 21 => WBool(m.laddersEnabled)
    case 22 => WBool(m.angledLaddersEnabled)
    case 23 => WBool(m.climbingLadder)
    case 24 => WVec(m.ladderNormal)
    case 25 => WVec(m.ladderDirection)
    case 26 => WVec(m.ladderClimbDir)
    case 27 => WVec(m.ladderVelocity)
    case 28 => WBool(m.underwater)
    case 29 => WBool(m.cameraUnderwater)
    case 30 => WBool(m.grounded)
    case 31 => WBool(m.groundedTemp)
    case 32 => WFloat(m.fallingVelocity)
    case 33 => WBool(m.useStepOffset)
    case _ => WFloat(m.stepOffset)
  }

  /** The writing direction of NetworkSerialize. */
  function Encode(m: MoveData): (ws: seq<WireValue>)
    ensures |ws| == WireFields
    ensures forall i :: 0 <= i < WireFields ==> ws[i] == WireField(m, i)
  {
    seq(WireFields, i requires 0 <= i < WireFields => WireField(m, i))
  }

  /** The first 35 values have the kinds of the fields in serialisation
      order: three vectors, eight floats, three flags, and so on. */
  predicate WellTyped(ws: seq<WireValue>) {
    |ws| >= WireFields &&
    ws[0].WVec? &&
    ws[1].WVec? &&
    ws[2].WVec? &&
    ws[3].WFloat? &&
    ws[4].WFloat? &&
    ws[5].WFloat? &&
    ws[6].WFloat? &&
    ws[7].WFloat? &&
    ws[8].WFloat? &&
    ws[9].WFloat? &&
    ws[10].WFloat? &&
    ws[11].WBool? &&
    ws[12].WBool? &&
    ws[13].WBool? &&
    ws[14].WFloat? &&
    ws[15].WFloat? &&
    ws[16].WFloat? &&
    ws[17].WFloat? &&
    ws[18].WFloat? &&
    ws[19].WBool? &&
    ws[20].WBool? &&
    ws[21].WBool? &&
    ws[22].WBool? &&
    ws[23].WBool? &&
    ws[24].WVec? &&
    ws[25].WVec? &&
    ws[26].WVec? &&
    ws[27].WVec? &&
    ws[28].WBool? &&
    ws[29].WBool? &&
    ws[30].WBool? &&
    ws[31].WBool? &&
    ws[32].WFloat? &&
    ws[33].WBool? &&
    ws[34].WFloat?
  }

  /** The reading direction of NetworkSerialize into an existing record:
      the 35 serialised fields are overwritten in order, the other three
      keep the values `into` had. A stream too short or of the wrong shape
      cannot be read. */
  function Decode(ws: seq<WireValue>, into: MoveData): (r: Option<MoveData>)
    ensures r.Some? <==> WellTyped(ws)
    ensures r.Some? ==> (r.value.playerTransform == into.playerTransform
                         && r.value.viewTransform == into.viewTransform
                         && r.value.viewTransformDefaultLocalPos == into.viewTransformDefaultLocalPos)
  {
    if !WellTyped(ws) then None
    else Some(MoveData(
      into.playerTransform, into.viewTransform, into.viewTransformDefaultLocalPos,
      ws[0].vec, ws[1].vec, ws[2].vec, ws[3].num, ws[4].num,
      ws[5].num, ws[6].num, ws[7].num, ws[8].num, ws[9].num,
      ws[10].num, ws[11].flag, ws[12].flag, ws[13].flag, ws[14].num,
      ws[15].num, ws[16].num, ws[17].num, ws[18].num, ws[19].flag,
      ws[20].flag, ws[21].flag, ws[22].flag, ws[23].flag, ws[24].vec,
      ws[25].vec, ws[26].vec, ws[27].vec, ws[28].flag, ws[29].flag,
      ws[30].flag, ws[31].flag, ws[32].num, ws[33].flag, ws[34].num))
  }

  /** The encoding has the shape the reader expects. */
  lemma EncodeWellTyped(m: MoveData)
    ensures WellTyped(Encode(m))
  {
  }

  lemma DecodeEncodePart1(m: MoveData, into: MoveData)
    ensures Decode(Encode(m), into).Some?
    ensures var d := Decode(Encode(m), into).value;
            d.origin == m.origin
            && d.viewAngles == m.viewAngles
            && d.velocity == m.velocity
            && d.forwardMove == m.forwardMove
            && d.sideMove == m.sideMove
            && d.upMove == m.upMove
            && d.surfaceFriction == m.surfaceFriction
            && d.gravityFactor == m.gravityFactor
            && d.walkFactor == m.walkFactor
  {
    EncodeWellTyped(m);
  }

  lemma DecodeEncodePart2(m: MoveData, into: MoveData)
    ensures Decode(Encode(m), into).Some?
    ensures var d := Decode(Encode(m), into).value;
            d.verticalAxis == m.verticalAxis
            && d.horizontalAxis == m.horizontalAxis
            && d.wishJump == m.wishJump
            && d.crouching == m.crouching
            && d.sprinting == m.sprinting
            && d.slopeLimit == m.slopeLimit
            && d.rigidbodyPushForce == m.rigidbodyPushForce
            && d.defaultHeight == m.defaultHeight
            && d.crouchingHeight == m.crouchingHeight
  {
    EncodeWellTyped(m);
  }

  lemma DecodeEncodePart3(m: MoveData, into: MoveData)
    ensures Decode(Encode(m), into).Some?
    ensures var d := Decode(Encode(m), into).value;
            d.crouchingSpeed == m.crouchingSpeed
            && d.toggleCrouch == m.toggleCrouch
            && d.slidingEnabled == m.slidingEnabled
            && d.laddersEnabled == m.laddersEnabled
            && d.angledLaddersEnabled == m.angledLaddersEnabled
            && d.climbingLadder == m.climbingLadder
            && d.ladderNormal == m.ladderNormal
            && d.ladderDirection == m.ladderDirection
            && d.ladderClimbDir == m.ladderClimbDir
  {
    EncodeWellTyped(m);
  }

  lemma DecodeEncodePart4(m: MoveData, into: MoveData)
    ensures Decode(Encode(m), into).Some?
    ensures var d := Decode(Encode(m), into).value;
            d.ladderVelocity == m.ladderVelocity
            && d.underwater == m.underwater
            && d.cameraUnderwater == m.cameraUnderwater
            && d.grounded == m.grounded
            && d.groundedTemp == m.groundedTemp
            && d.fallingVelocity == m.fallingVelocity
            && d.useStepOffset == m.useStepOffset
            && d.stepOffset == m.stepOffset
  {
    EncodeWellTyped(m);
  }

  /** Decoding what was encoded restores all 35 serialised fields and keeps
      the receiver's three others. */
  lemma DecodeEncode(m: MoveData, into: MoveData)
    ensures Decode(Encode(m), into)
         == Some(m.(playerTransform := into.playerTransform,
                    viewTransform := into.viewTransform,
                    viewTransformDefaultLocalPos := into.viewTransformDefaultLocalPos))
  {
    DecodeEncodePart1(m, into);
    DecodeEncodePart2(m, into);
    DecodeEncodePart3(m, into);
    DecodeEncodePart4(m, into);
  }

  /** Whatever decodes was the encoding of the decoded record. */
  lemma EncodeDecode(ws: seq<WireValue>, into: MoveData)
    requires Decode(ws, into).Some?
    ensures Encode(Decode(ws, into).value) == ws[..WireFields]
  {
    var e := Encode(Decode(ws, into).value);
    assert forall i :: 0 <= i < WireFields ==> e[i] == ws[i];
  }

  /** A record sent over the network and read into `into` Equals the
      original exactly when the three unserialised fields already agree. */
  lemma RoundTripEquals(m: MoveData, into: MoveData)
    ensures Decode(Encode(m), into).Some?
    ensures Equals(Decode(Encode(m), into).value, Some(m))
        <==> (into.playerTransform == m.playerTransform
              && into.viewTransform == m.viewTransform
              && into.viewTransformDefaultLocalPos == m.viewTransformDefaultLocalPos)
  {
    DecodeEncode(m, into);
    EqualsIsEquality(Decode(Encode(m), into).value, Some(m));
  }
}
