/*
 * Ready-made coil arrangements of src/coilcalc/templates.py. Each template
 * is arithmetic on its parameters followed by CurrentLoop constructor calls
 * (x_span, radius, nturns, current, layers, layer_thickness), modelled by
 * CoilLoops.MakeCoil. Helmholtz and three-coil groups simulate 9 turns per
 * coil in 3 layers and scale the current by turns / 9 to keep the
 * ampere-turns.
 */
module Templates {
  import opened Common
  import opened Numerics
  import opened CoilLoops

  /** The centre of a coil's axial span. */
  function Centre(c: Coil): real
    requires c.Valid()
  {
    (c.xSpan[0] + c.xSpan[1]) / 2.0
  }

  /** A 9-turn, 3-layer stand-in coil over [lo, hi] at radius r. */
  function NineTurnCoil(lo: real, hi: real, r: real, current: real, thickness: real): (c: Coil)
    ensures c.Valid() && c.xSpan == [lo, hi] && c.radius == [r, r]
    ensures c.nturns == 9 && c.layers == 3 && c.current == current && c.layerThickness == thickness
  {
    MakeCoil(Listed([lo, hi]), Scalar(r), 9.0, current, 3.0, thickness).value
  }

  /**
   * compensated_solenoid: the main solenoid over [-length/2, length/2] at
   * radius d0/2, then a compensation coil at each end, wound on top of it
   * (radius d0/2 + wire_diameter) and extending turns_comp * wire_diameter
   * inward. The constructors run in the order main, left, right, so the
   * main coil's errors come first.
   */
  function CompensatedSolenoid(length: real, d0: real, turnsMain: real, turnsComp: real, wireDiameter: real,
                               layersMain: real, layersComp: real, current: real): (r: Result<seq<Coil>>)
    ensures var main := MakeCoil(Listed([-length / 2.0, length / 2.0]), Scalar(d0 / 2.0), turnsMain, current, layersMain, wireDiameter);
      main.Failure? ==> r == Failure(main.error)
    ensures r.Success? <==> turnsMain >= 1.0 && layersMain.Floor as real == layersMain && layersMain >= 1.0
                            && turnsComp >= 1.0 && layersComp.Floor as real == layersComp && layersComp >= 1.0
    ensures r.Success? ==>
      |r.value| == 3
      && r.value[0].xSpan == [-length / 2.0, length / 2.0] && r.value[0].radius == [d0 / 2.0, d0 / 2.0]
      && r.value[1].xSpan == [-length / 2.0, -length / 2.0 + turnsComp * wireDiameter]
      && r.value[2].xSpan == [length / 2.0, length / 2.0 - turnsComp * wireDiameter]
      && r.value[1].radius == r.value[2].radius == [d0 / 2.0 + wireDiameter, d0 / 2.0 + wireDiameter]
      && r.value[0].nturns == turnsMain.Floor && r.value[1].nturns == r.value[2].nturns == turnsComp.Floor
      && (forall k :: 0 <= k < 3 ==> r.value[k].Valid() && r.value[k].current == current && r.value[k].layerThickness == wireDiameter)
  {
    var main := MakeCoil(Listed([-length / 2.0, length / 2.0]), Scalar(d0 / 2.0), turnsMain, current, layersMain, wireDiameter);
    var left := MakeCoil(Listed([-length / 2.0, -length / 2.0 + turnsComp * wireDiameter]), Scalar(d0 / 2.0 + wireDiameter),
                         turnsComp, current, layersComp, wireDiameter);
    var right := MakeCoil(Listed([length / 2.0, length / 2.0 - turnsComp * wireDiameter]), Scalar(d0 / 2.0 + wireDiameter),
                          turnsComp, current, layersComp, wireDiameter);
    if main.Failure? then Failure(main.error)
    else if left.Failure? then Failure(left.error)
    // right has the same turns and layers as left, so it cannot fail here
    else Success([main.value, left.value, right.value])
  }

  /** The two compensation coils are mirror images of each other about x = 0. */
  lemma CompensationMirrored(length: real, d0: real, turnsMain: real, turnsComp: real, wireDiameter: real,
                             layersMain: real, layersComp: real, current: real)
    requires CompensatedSolenoid(length, d0, turnsMain, turnsComp, wireDiameter, layersMain, layersComp, current).Success?
    ensures var coils := CompensatedSolenoid(length, d0, turnsMain, turnsComp, wireDiameter, layersMain, layersComp, current).value;
      coils[2].xSpan == [-coils[1].xSpan[0], -coils[1].xSpan[1]]
      && coils[2].(xSpan := coils[1].xSpan) == coils[1]
  {
    var coils := CompensatedSolenoid(length, d0, turnsMain, turnsComp, wireDiameter, layersMain, layersComp, current).value;
    assert coils[2].xSpan[1] == -coils[1].xSpan[1];
  }

  /**
   * helmholtz_coil: two coils of width coil_width centred at -r/2 and r/2,
   * at radius r - coil_thickness/2, 9 turns in 3 layers of thickness
   * coil_thickness/2, each loop carrying current * turns / 9.
   */
  function HelmholtzCoil(r: real, coilWidth: real, coilThickness: real, current: real, turns: real): (coils: seq<Coil>)
    ensures |coils| == 2
    ensures var dr := coilWidth / 2.0;
      coils[0].xSpan == [-r / 2.0 - dr, -r / 2.0 + dr] && coils[1].xSpan == [r / 2.0 - dr, r / 2.0 + dr]
    ensures forall k :: 0 <= k < 2 ==>
      coils[k].Valid() && coils[k].nturns == 9 && coils[k].layers == 3
      && coils[k].layerThickness == coilThickness / 2.0
      && coils[k].radius == [r - coilThickness / 2.0, r - coilThickness / 2.0]
      && coils[k].current == current * turns / 9.0
  {
    var dr := coilWidth / 2.0;
    [NineTurnCoil(-r / 2.0 - dr, -r / 2.0 + dr, r - coilThickness / 2.0, current * turns / 9.0, coilThickness / 2.0),
     NineTurnCoil(r / 2.0 - dr, r / 2.0 + dr, r - coilThickness / 2.0, current * turns / 9.0, coilThickness / 2.0)]
  }

  /**
   * The Helmholtz pair: the coils sit mirrored about x = 0, r apart, the
   * second is the first moved by r along the axis, and each one's 9 loops
   * carry current * turns ampere-turns in all.
   */
  lemma HelmholtzPair(r: real, coilWidth: real, coilThickness: real, current: real, turns: real)
    ensures var coils := HelmholtzCoil(r, coilWidth, coilThickness, current, turns);
      Centre(coils[0]) == -r / 2.0 && Centre(coils[1]) == r / 2.0
      && coils[1] == Shifted(coils[0], r)
      && TotalCurrent(LoopTable(coils[0])) == current * turns
      && TotalCurrent(LoopTable(coils[1])) == current * turns
  {
    var coils := HelmholtzCoil(r, coilWidth, coilThickness, current, turns);
    AmpereTurns(coils[0]);
    AmpereTurns(coils[1]);
    assert coils[1].xSpan == Shifted(coils[0], r).xSpan;
  }

  /** The field of the second Helmholtz coil is that of the first, moved by r along the axis. */
  lemma HelmholtzTranslation(num: Kernels, r: real, coilWidth: real, coilThickness: real, current: real, turns: real, xp: real, yp: real)
    ensures var coils := HelmholtzCoil(r, coilWidth, coilThickness, current, turns);
      CoilField(num, coils[1], xp + r, yp) == CoilField(num, coils[0], xp, yp)
  {
    var coils := HelmholtzCoil(r, coilWidth, coilThickness, current, turns);
    HelmholtzPair(r, coilWidth, coilThickness, current, turns);
    CoilFieldTranslation(num, coils[0], r, xp, yp);
  }

  /**
   * three_coils: side coils of width coil_width centred at -half_length and
   * half_length at radius r_side, and a centre coil over
   * [-coil_width/2, coil_width/2] at radius r_center; 9 turns in 3 layers of
   * thickness coil_thickness/2 each, the side loops carrying
   * current * turns_side / 9 and the centre ones current * turns_center / 9.
   */
  function ThreeCoils(halfLength: real, rSide: real, rCenter: real, coilWidth: real, coilThickness: real, current: real,
                      turnsSide: real, turnsCenter: real): (coils: seq<Coil>)
    ensures |coils| == 3
    ensures coils[0].xSpan == [-halfLength - coilWidth / 2.0, -halfLength + coilWidth / 2.0]
    ensures coils[1].xSpan == [halfLength - coilWidth / 2.0, halfLength + coilWidth / 2.0]
    ensures coils[2].xSpan == [0.0 - coilWidth / 2.0, 0.0 + coilWidth / 2.0]
    ensures coils[0].radius == coils[1].radius == [rSide, rSide] && coils[2].radius == [rCenter, rCenter]
    ensures coils[0].current == coils[1].current == current * turnsSide / 9.0 && coils[2].current == current * turnsCenter / 9.0
    ensures forall k :: 0 <= k < 3 ==>
      coils[k].Valid() && coils[k].nturns == 9 && coils[k].layers == 3 && coils[k].layerThickness == coilThickness / 2.0
  {
    var sideCurrent := current * turnsSide / 9.0;
    var centreCurrent := current * turnsCenter / 9.0;
    [NineTurnCoil(-halfLength - coilWidth / 2.0, -halfLength + coilWidth / 2.0, rSide, sideCurrent, coilThickness / 2.0),
     NineTurnCoil(halfLength - coilWidth / 2.0, halfLength + coilWidth / 2.0, rSide, sideCurrent, coilThickness / 2.0),
     NineTurnCoil(0.0 - coilWidth / 2.0, 0.0 + coilWidth / 2.0, rCenter, centreCurrent, coilThickness / 2.0)]
  }

  /**
   * The three-coil group: side coils centred at -half_length and
   * half_length (the second the first moved by 2 half_length), the centre
   * coil at 0, and the loops of each coil carrying its full ampere-turns.
   */
  lemma ThreeCoilsLayout(halfLength: real, rSide: real, rCenter: real, coilWidth: real, coilThickness: real, current: real,
                         turnsSide: real, turnsCenter: real)
    ensures var coils := ThreeCoils(halfLength, rSide, rCenter, coilWidth, coilThickness, current, turnsSide, turnsCenter);
      Centre(coils[0]) == -halfLength && Centre(coils[1]) == halfLength && Centre(coils[2]) == 0.0
      && coils[1] == Shifted(coils[0], 2.0 * halfLength)
      && TotalCurrent(LoopTable(coils[0])) == current * turnsSide
      && TotalCurrent(LoopTable(coils[1])) == current * turnsSide
      && TotalCurrent(LoopTable(coils[2])) == current * turnsCenter
  {
    var coils := ThreeCoils(halfLength, rSide, rCenter, coilWidth, coilThickness, current, turnsSide, turnsCenter);
    AmpereTurns(coils[0]);
    AmpereTurns(coils[1]);
    AmpereTurns(coils[2]);
    assert coils[1].xSpan == Shifted(coils[0], 2.0 * halfLength).xSpan;
  }

  /** maxwell_coil is a stub: it builds nothing and returns None. */
  function MaxwellCoil(rCenter: real, coilWidth: real, coilThickness: real, current: real, turnsCenter: real): (r: Option<seq<Coil>>)
    ensures r == None
  {
    None
  }
}
