/** The world of the side-scroller (src/gameplay/world.go): the level that
    streams terrain into the 30 x 120 ring of tiles ahead of the camera,
    biome by biome, and the world step that moves the camera, extends the
    level, updates players, zombies and entities and records which
    entities overlap.

    The Perlin noise, `rand` and the clock are parameters: the noise is an
    oracle giving the (already truncated) ground offset of a column, and
    every random roll is an oracle keyed by the world column being
    generated, which is never generated twice. */
module World {
  import opened Common
  import opened Graphics
  import opened Tiles
  import opened Camera
  import opened Entities
  import opened Zombies
  import opened Input

  /** Columns to keep generated ahead of the view once generation starts. */
  const MAXWORLDGENBUFFERLEN: nat := 80
  /** Generation starts when fewer columns than this are ahead. */
  const MINWORLDGENBUFFERLEN: nat := 40
  /** A biome spans this many columns past its first. */
  const BIOMELENGTH: nat := 8
  /** Slots in the ring of biomes. */
  const BIOMESLOTS: nat := MAXWORLDGENBUFFERLEN / BIOMELENGTH + 1
  /** Floor of the first biome: half the grid's height. */
  const STARTFLOOR: nat := WORLDBUFFERHEIGHT / 2
  const PLAYERWORLDSTARTX: real := TILEWIDTH
  const GRAVITY: real := 0.25
  /** Level width, in columns, of the level the world generates. */
  const LEVELWIDTH: nat := 100

  // ---------------------------------------------------------------------
  // Biomes and their configuration
  // ---------------------------------------------------------------------

  /** One biome type as configured: its neighbours and its terrain shape. */
  datatype BiomeJson = BiomeJson(NextTo: seq<string>, SurfaceTiles: int, SubSurfaceTiles: int,
                                 GenAmplitude: nat, GenFrequency: real)

  const ZeroJson: BiomeJson := BiomeJson([], 0, 0, 0, 0.0)

  /** A Go map lookup: a missing key yields the zero value. */
  function Lookup(data: map<string, BiomeJson>, key: string): BiomeJson
  {
    if key in data then data[key] else ZeroJson
  }

  /** The configuration the generator can run on forever: a start biome,
      and every biome has neighbours, all of them configured. (A biome
      without neighbours makes Go divide by zero at its first switch.) */
  predicate WellFormed(data: map<string, BiomeJson>)
  {
    "start" in data &&
    forall k :: k in data ==> |data[k].NextTo| > 0 && forall n :: n in data[k].NextTo ==> n in data
  }

  /** A stretch of terrain of one type. */
  datatype Biome = Biome(json: BiomeJson, biomeType: string, startX: nat, floorHeight: nat)

  const ZeroBiome: Biome := Biome(ZeroJson, "", 0, 0)

  /** The noise oracle: the ground offset `uint32(noise * amplitude)` of
      ring column `arrX` for a biome of the given frequency and amplitude. */
  type Noise = (nat, real, nat) -> nat

  /** The random rolls made while generating column `gen`: the pick among
      the neighbours, the spawn roll (`rand.Intn(10)`), and a spawned
      zombie's speed and hearing rolls. */
  datatype Rng = Rng(biomePick: nat -> nat, spawnRoll: nat -> nat, speedRoll: nat -> nat, hearingRoll: nat -> nat)

  // ---------------------------------------------------------------------
  // The generator as a function
  // ---------------------------------------------------------------------

  /** The generator's state: the cursor, the active slot and the biome ring. */
  datatype GenState = GenState(gen: nat, curIdx: nat, biomes: seq<Biome>)

  /** What generating one column decided: its world column, its ground row
      and whether it is rocky. */
  datatype Column = Column(gen: nat, groundY: nat, rocky: bool)

  /** A zombie to place: its position and the column it was rolled for. */
  datatype Spawn = Spawn(x: real, y: real, gen: nat)

  /** The active biome is configured and its record is the configuration's. */
  predicate GenValid(s: GenState, data: map<string, BiomeJson>)
  {
    WellFormed(data) && |s.biomes| == BIOMESLOTS && s.curIdx < |s.biomes| &&
    s.biomes[s.curIdx].biomeType in data && s.biomes[s.curIdx].json == data[s.biomes[s.curIdx].biomeType]
  }

  /** Whether the active biome is over at column `gen`. */
  predicate BiomeOver(b: Biome, gen: nat)
  {
    b.startX + BIOMELENGTH < gen
  }

  /** The biome ring after the switch check at the cursor: once the active
      biome is over, the next slot becomes active with a type picked among
      the old biome's neighbours, starting here. */
  function SwitchBiome(s: GenState, data: map<string, BiomeJson>, rng: Rng): (r: GenState)
    requires GenValid(s, data)
    ensures GenValid(r, data) && r.gen == s.gen
  {
    var cur := s.biomes[s.curIdx];
    if BiomeOver(cur, s.gen) then
      var idx := (s.curIdx + 1) % |s.biomes|;
      var newType := cur.json.NextTo[rng.biomePick(s.gen) % |cur.json.NextTo|];
      var nb := s.biomes[idx].(json := Lookup(data, newType), startX := s.gen, biomeType := newType);
      GenState(s.gen, idx, s.biomes[idx := nb])
    else s
  }

  /** Generating the column at the cursor: switch biome if due; the ground
      row is the old active biome's floor plus the noise of the new active
      biome; the active biome's floor is then the ground row if this is its
      last column and the old floor otherwise; the cursor moves on. */
  function ColumnStep(s: GenState, data: map<string, BiomeJson>, noise: Noise, rng: Rng): (r: (GenState, Column))
    requires GenValid(s, data)
    ensures GenValid(r.0, data) && r.0.gen == s.gen + 1 && r.1.gen == s.gen
  {
    var floorBase := s.biomes[s.curIdx].floorHeight;
    var t := SwitchBiome(s, data, rng);
    var b := t.biomes[t.curIdx];
    var groundY := floorBase + noise(ToBufferIndex(s.gen), b.json.GenFrequency, b.json.GenAmplitude);
    var floor := if b.startX + BIOMELENGTH < s.gen + 1 then groundY else floorBase;
    (GenState(s.gen + 1, t.curIdx, t.biomes[t.curIdx := b.(floorHeight := floor)]),
     Column(s.gen, groundY, b.biomeType == "rocky"))
  }

  /** `n` columns generated in a row, with what each decided. */
  function Run(s: GenState, data: map<string, BiomeJson>, noise: Noise, rng: Rng, n: nat): (r: (GenState, seq<Column>))
    requires GenValid(s, data)
    ensures GenValid(r.0, data) && r.0.gen == s.gen + n && |r.1| == n
    ensures forall k :: 0 <= k < n ==> r.1[k].gen == s.gen + k
  {
    if n == 0 then (s, [])
    else
      var p := Run(s, data, noise, rng, n - 1);
      var q := ColumnStep(p.0, data, noise, rng);
      (q.0, p.1 + [q.1])
  }

  /** The biome switch happens exactly when the active biome is over; it
      moves to the next slot of the ring, which starts at the cursor with
      one of the old biome's neighbours as its type and that type's
      configuration. Without a switch only the active biome's floor may
      change; with one, only the new active slot changes. */
  lemma BiomeSwitch(s: GenState, data: map<string, BiomeJson>, noise: Noise, rng: Rng)
    requires GenValid(s, data)
    ensures var r := ColumnStep(s, data, noise, rng).0;
      var old_ := s.biomes[s.curIdx];
      var cur := r.biomes[r.curIdx];
      (r.curIdx != s.curIdx <==> BiomeOver(old_, s.gen)) &&
      (BiomeOver(old_, s.gen) ==>
        r.curIdx == (s.curIdx + 1) % BIOMESLOTS && cur.startX == s.gen &&
        cur.biomeType in old_.json.NextTo && cur.json == data[cur.biomeType]) &&
      (!BiomeOver(old_, s.gen) ==> cur == old_.(floorHeight := cur.floorHeight)) &&
      (forall i :: 0 <= i < BIOMESLOTS && i != r.curIdx ==> r.biomes[i] == s.biomes[i])
  {
  }

  /** Floor continuity: a column's ground row is the floor the previously
      active biome left plus the noise, so a new biome's first column
      starts from the old biome's final floor. The active biome's floor
      becomes the ground row only on its last column, and otherwise stays
      the floor it started from. */
  lemma FloorContinuity(s: GenState, data: map<string, BiomeJson>, noise: Noise, rng: Rng)
    requires GenValid(s, data)
    ensures var r := ColumnStep(s, data, noise, rng);
      var cur := r.0.biomes[r.0.curIdx];
      var b := s.biomes[s.curIdx];
      r.1.groundY == b.floorHeight + noise(ToBufferIndex(s.gen), cur.json.GenFrequency, cur.json.GenAmplitude) &&
      cur.floorHeight == (if cur.startX + BIOMELENGTH == s.gen then r.1.groundY else b.floorHeight) &&
      (BiomeOver(b, s.gen) ==> cur.floorHeight == b.floorHeight)
  {
  }

  /** The configuration has no hills: every amplitude is zero, and the
      noise of a zero amplitude is zero. */
  ghost predicate Flat(data: map<string, BiomeJson>, noise: Noise)
  {
    (forall k :: k in data ==> data[k].GenAmplitude == 0) &&
    (forall a: nat, f: real :: noise(a, f, 0) == 0)
  }

  /** Flat terrain: with no hills every generated column's ground row is
      the active floor, which never changes. */
  lemma {:induction false} FlatTerrain(s: GenState, data: map<string, BiomeJson>, noise: Noise, rng: Rng, n: nat)
    requires GenValid(s, data) && Flat(data, noise)
    ensures var r := Run(s, data, noise, rng, n);
      r.0.biomes[r.0.curIdx].floorHeight == s.biomes[s.curIdx].floorHeight &&
      forall k :: 0 <= k < n ==> r.1[k].groundY == s.biomes[s.curIdx].floorHeight
  {
    if n > 0 {
      var floor := s.biomes[s.curIdx].floorHeight;
      FlatTerrain(s, data, noise, rng, n - 1);
      var p := Run(s, data, noise, rng, n - 1);
      var q := ColumnStep(p.0, data, noise, rng);
      RunSnoc(s, data, noise, rng, n - 1);
      FlatStep(p.0, data, noise, rng);
      var cols := p.1 + [q.1];
      assert Run(s, data, noise, rng, n) == (q.0, cols);
      assert q.0.biomes[q.0.curIdx].floorHeight == floor;
      forall k | 0 <= k < n
        ensures cols[k].groundY == floor
      {
        if k < n - 1 {
          assert cols[k] == p.1[k];
        }
      }
    }
  }

  /** With no hills one column step keeps the active floor and puts the
      column's ground on it. */
  lemma FlatStep(s: GenState, data: map<string, BiomeJson>, noise: Noise, rng: Rng)
    requires GenValid(s, data) && Flat(data, noise)
    ensures var q := ColumnStep(s, data, noise, rng);
      q.1.groundY == s.biomes[s.curIdx].floorHeight &&
      q.0.biomes[q.0.curIdx].floorHeight == s.biomes[s.curIdx].floorHeight
  {
    var t := SwitchBiome(s, data, rng);
    var b := t.biomes[t.curIdx];
    assert b.json.GenAmplitude == 0;
    assert noise(ToBufferIndex(s.gen), b.json.GenFrequency, 0) == 0;
  }

  /** The generator's state in a new level: the cursor at 0, the first slot
      active with the start biome on the middle row, the other slots zero. */
  function StartState(data: map<string, BiomeJson>): (s: GenState)
    requires WellFormed(data)
    ensures GenValid(s, data)
    ensures s.biomes[s.curIdx].floorHeight == STARTFLOOR && s.biomes[s.curIdx].biomeType == "start"
  {
    var zeros := seq(BIOMESLOTS, i => ZeroBiome);
    GenState(0, 0, zeros[0 := Biome(Lookup(data, "start"), "start", 0, STARTFLOOR)])
  }

  /** With no hills, a new level's ground is the middle row everywhere. */
  lemma FlatFromStart(data: map<string, BiomeJson>, noise: Noise, rng: Rng, n: nat)
    requires WellFormed(data) && Flat(data, noise)
    ensures forall k :: 0 <= k < n ==> Run(StartState(data), data, noise, rng, n).1[k].groundY == STARTFLOOR
  {
    FlatTerrain(StartState(data), data, noise, rng, n);
  }

  /** How many columns one generation check produces: none while more than
      40 columns are ready past the view's left edge; otherwise enough for
      the cursor to pass 80 columns beyond it. */
  function GenCount(worldXStart: nat, gen: nat): (n: nat)
    ensures worldXStart + MINWORLDGENBUFFERLEN < gen ==> n == 0
    ensures worldXStart + MINWORLDGENBUFFERLEN >= gen ==> gen + n == worldXStart + MAXWORLDGENBUFFERLEN + 1
  {
    if worldXStart + MINWORLDGENBUFFERLEN >= gen && worldXStart + MAXWORLDGENBUFFERLEN >= gen then
      worldXStart + MAXWORLDGENBUFFERLEN + 1 - gen
    else 0
  }

  /** The zombie rolled for column `c`: on top of its ground, at its left
      edge. */
  function SpawnAt(c: Column): (sp: Spawn)
    ensures sp.gen == c.gen
  {
    Spawn((c.gen * 32) as real, c.groundY as real * TILEWIDTH - TILEWIDTH, c.gen)
  }

  /** The zombies rolled for the generated columns, in order: one for each
      column whose spawn roll is 0. */
  function Spawns(cols: seq<Column>, rng: Rng): (r: seq<Spawn>)
    ensures |r| <= |cols|
  {
    if |cols| == 0 then []
    else
      var c := cols[|cols| - 1];
      Spawns(cols[..|cols| - 1], rng) + (if rng.spawnRoll(c.gen) < 1 then [SpawnAt(c)] else [])
  }

  lemma SpawnsSnoc(cols: seq<Column>, c: Column, rng: Rng)
    ensures Spawns(cols + [c], rng) == Spawns(cols, rng) + (if rng.spawnRoll(c.gen) < 1 then [SpawnAt(c)] else [])
  {
    assert (cols + [c])[..|cols|] == cols;
  }

  /** A zombie is rolled exactly for the generated columns whose spawn
      roll is 0, each on top of its column's ground. */
  lemma {:induction false} SpawnsOnGround(cols: seq<Column>, rng: Rng)
    ensures forall sp :: sp in Spawns(cols, rng) <==>
              exists c :: c in cols && rng.spawnRoll(c.gen) < 1 && sp == SpawnAt(c)
  {
    if |cols| > 0 {
      var init := cols[..|cols| - 1];
      var last := cols[|cols| - 1];
      assert cols == init + [last];
      SpawnsOnGround(init, rng);
      forall sp
        ensures sp in Spawns(cols, rng) <==> exists c :: c in cols && rng.spawnRoll(c.gen) < 1 && sp == SpawnAt(c)
      {
        if c :| c in cols && rng.spawnRoll(c.gen) < 1 && sp == SpawnAt(c) {
          if c in init {
            assert sp in Spawns(init, rng);
          } else {
            assert c == last;
          }
        }
        if sp in Spawns(init, rng) {
          var c :| c in init && rng.spawnRoll(c.gen) < 1 && sp == SpawnAt(c);
          assert c in cols;
        }
      }
    }
  }

  /** Running one column more is running the column step once more. */
  lemma RunSnoc(s: GenState, data: map<string, BiomeJson>, noise: Noise, rng: Rng, n: nat)
    requires GenValid(s, data)
    ensures var p := Run(s, data, noise, rng, n);
      var q := ColumnStep(p.0, data, noise, rng);
      Run(s, data, noise, rng, n + 1) == (q.0, p.1 + [q.1])
  {
  }

  // ---------------------------------------------------------------------
  // Tiles written by the generator
  // ---------------------------------------------------------------------

  function SurfaceImage(rocky: bool): Image
  {
    if rocky then GetSpriteImage(RockTile) else GetSpriteImage(GrassTile)
  }

  function SubsurfaceImage(rocky: bool): Image
  {
    if rocky then GetSpriteImage(RockTile) else GetSpriteImage(DirtTile)
  }

  /** A tile of row `y` in a generated column: at the column's world x;
      sky above the ground row, the surface on it, the subsurface below;
      only sky is passable. */
  predicate GeneratedTile(t: Tile, c: Column, y: nat)
  {
    t.x == c.gen as real * TILEWIDTH &&
    if y == c.groundY then t.im == Some(SurfaceImage(c.rocky)) && !t.isPassable
    else if y > c.groundY then t.im == Some(SubsurfaceImage(c.rocky)) && !t.isPassable
    else t.im == None && t.isPassable
  }

  /** The grid after writing column `c` into its ring column. */
  function WriteCol(g: seq<seq<Tile>>, c: Column): (r: seq<seq<Tile>>)
    requires GridShape(g)
    ensures GridShape(r)
    ensures forall y, x :: 0 <= y < WORLDBUFFERHEIGHT && 0 <= x < WORLDBUFFERLEN ==>
              r[y][x] == if x == ToBufferIndex(c.gen) then Regenerated(g[y][x], c, y) else g[y][x]
  {
    seq(WORLDBUFFERHEIGHT, y requires 0 <= y < WORLDBUFFERHEIGHT =>
      g[y][ToBufferIndex(c.gen) := Regenerated(g[y][ToBufferIndex(c.gen)], c, y)])
  }

  /** Two grids with the same cells are the same grid. */
  lemma GridEq(g: seq<seq<Tile>>, h: seq<seq<Tile>>)
    requires GridShape(g) && GridShape(h)
    requires forall y, x :: 0 <= y < WORLDBUFFERHEIGHT && 0 <= x < WORLDBUFFERLEN ==> g[y][x] == h[y][x]
    ensures g == h
  {
    forall y | 0 <= y < WORLDBUFFERHEIGHT
      ensures g[y] == h[y]
    {
    }
  }

  /** Every row of the ring column of `c` holds what `c` decided. */
  predicate ColumnWritten(g: seq<seq<Tile>>, c: Column)
    requires GridShape(g)
  {
    forall y :: 0 <= y < WORLDBUFFERHEIGHT ==> GeneratedTile(g[y][ToBufferIndex(c.gen)], c, y)
  }

  /** No world column in [lo, hi) uses ring column `col`. */
  predicate Untouched(col: nat, lo: nat, hi: nat)
  {
    forall g :: lo <= g < hi ==> ToBufferIndex(g) != col
  }

  /** The generated tile of `t`: what only generation changes. */
  function Regenerated(t: Tile, c: Column, y: nat): (r: Tile)
    ensures GeneratedTile(r, c, y)
    ensures r.id == t.id && r.y == t.y && r.width == t.width && r.height == t.height
  {
    if y == c.groundY then t.(x := c.gen as real * TILEWIDTH, im := Some(SurfaceImage(c.rocky)), isPassable := false)
    else if y > c.groundY then t.(x := c.gen as real * TILEWIDTH, im := Some(SubsurfaceImage(c.rocky)), isPassable := false)
    else t.(x := c.gen as real * TILEWIDTH, im := None, isPassable := true)
  }

  /** A tile whose identity, row position and size are the same as `u`'s. */
  predicate SameShape(t: Tile, u: Tile)
  {
    t.id == u.id && t.y == u.y && t.width == u.width && t.height == u.height
  }

  /** The grid `cur` has taken, over the grid `orig`, the columns `cols`
      generated from world column `g0` on: the last 120 of them are written
      as decided, every tile keeps its identity, row and size, and ring
      columns none of them maps to are as they were. */
  predicate Laid(cur: seq<seq<Tile>>, orig: seq<seq<Tile>>, g0: nat, cols: seq<Column>)
    requires GridShape(cur) && GridShape(orig)
  {
    (forall k :: 0 <= k < |cols| && |cols| - k <= WORLDBUFFERLEN ==> ColumnWritten(cur, cols[k])) &&
    (forall y, x :: 0 <= y < WORLDBUFFERHEIGHT && 0 <= x < WORLDBUFFERLEN ==> SameShape(cur[y][x], orig[y][x])) &&
    (forall y, x :: 0 <= y < WORLDBUFFERHEIGHT && 0 <= x < WORLDBUFFERLEN && Untouched(x, g0, g0 + |cols|) ==>
       cur[y][x] == orig[y][x])
  }

  /** Writing the next column keeps the account: the new column is written,
      the 119 before it keep theirs since they use other ring columns, and
      a ring column the new one does not use stays as it was. */
  lemma LaidStep(before: seq<seq<Tile>>, after: seq<seq<Tile>>, orig: seq<seq<Tile>>, g0: nat, cols: seq<Column>, col: Column)
    requires GridShape(before) && GridShape(after) && GridShape(orig)
    requires forall k :: 0 <= k < |cols| ==> cols[k].gen == g0 + k
    requires col.gen == g0 + |cols|
    requires Laid(before, orig, g0, cols)
    requires after == WriteCol(before, col)
    ensures Laid(after, orig, g0, cols + [col])
  {
    var cols' := cols + [col];
    forall k | 0 <= k < |cols'| && |cols'| - k <= WORLDBUFFERLEN
      ensures ColumnWritten(after, cols'[k])
    {
      if k < |cols| {
        DistinctColumns(g0 + k, g0 + |cols|);
        assert ColumnWritten(before, cols[k]);
      }
    }
    forall y, x | 0 <= y < WORLDBUFFERHEIGHT && 0 <= x < WORLDBUFFERLEN && Untouched(x, g0, g0 + |cols'|)
      ensures after[y][x] == orig[y][x]
    {
      assert ToBufferIndex(g0 + |cols|) != x;
    }
  }

  // ---------------------------------------------------------------------
  // The level
  // ---------------------------------------------------------------------

  /** A level: the world's tile grid it writes, its ring of biomes, the
      configuration, the oracles, its width in columns, the visible window
      and the generation cursor, all in world columns. */
  class Level {
    const tiles: array2<Tile>
    const biomes: array<Biome>
    const biomeData: map<string, BiomeJson>
    const noise: Noise
    const rng: Rng
    const worldWidth: nat
    var worldXStart: nat
    var worldXEnd: nat
    var worldXGen: nat
    var curBiomeIdx: nat

    ghost predicate Valid()
      reads this, biomes
    {
      IsGrid(tiles) && biomes.Length == BIOMESLOTS && GenValid(Gen(), biomeData)
    }

    /** The generator's state as a value. */
    function Gen(): GenState
      reads this, biomes
    {
      GenState(worldXGen, curBiomeIdx, biomes[..])
    }

    /** `NewLevel`: a fresh ring of zero biomes whose first slot is the
        start biome on the middle row; nothing generated yet. */
    constructor NewLevel(tiles: array2<Tile>, worldWidth: nat, biomeData: map<string, BiomeJson>, noise: Noise, rng: Rng)
      requires IsGrid(tiles) && WellFormed(biomeData)
      ensures Valid() && fresh(biomes)
      ensures this.tiles == tiles && this.worldWidth == worldWidth && this.biomeData == biomeData
      ensures this.noise == noise && this.rng == rng
      ensures Gen() == StartState(biomeData)
      ensures worldXStart == 0 && worldXEnd == 0
    {
      this.tiles := tiles;
      this.worldWidth := worldWidth;
      this.biomeData := biomeData;
      this.noise := noise;
      this.rng := rng;
      worldXStart, worldXEnd, worldXGen := 0, 0, 0;
      curBiomeIdx := 0;
      var b := new Biome[BIOMESLOTS](i => ZeroBiome);
      b[0] := b[0].(biomeType := "start");
      b[0] := b[0].(floorHeight := WORLDBUFFERHEIGHT / 2);
      b[0] := b[0].(json := Lookup(biomeData, "start"));
      biomes := b;
      new;
      assert biomes[..] == StartState(biomeData).biomes;
    }

    /** `initWorld`: every cell gets a new tile at its own position, with
        no image. */
    method InitWorld()
      requires IsGrid(tiles)
      modifies tiles
      ensures forall y, x :: 0 <= y < WORLDBUFFERHEIGHT && 0 <= x < WORLDBUFFERLEN ==>
                tiles[y, x] == NewTile(0, (x * 32) as real, (y * 32) as real, None)
    {
      var x := 0;
      while x < WORLDBUFFERLEN
        invariant 0 <= x <= WORLDBUFFERLEN
        invariant forall y', x' :: 0 <= y' < WORLDBUFFERHEIGHT && 0 <= x' < x ==>
                    tiles[y', x'] == NewTile(0, (x' * 32) as real, (y' * 32) as real, None)
      {
        var y := 0;
        while y < WORLDBUFFERHEIGHT
          invariant 0 <= y <= WORLDBUFFERHEIGHT
          invariant forall y', x' :: 0 <= y' < WORLDBUFFERHEIGHT && 0 <= x' < x ==>
                      tiles[y', x'] == NewTile(0, (x' * 32) as real, (y' * 32) as real, None)
          invariant forall y' :: 0 <= y' < y ==> tiles[y', x] == NewTile(0, (x * 32) as real, (y' * 32) as real, None)
        {
          tiles[y, x] := NewTile(0, (x * 32) as real, (y * 32) as real, None);
          y := y + 1;
        }
        x := x + 1;
      }
    }

    /** The biome check at the top of a pass of the generation loop: once
        the active biome is over, the next slot of the ring becomes active
        with a type picked among the old biome's neighbours, starting at the
        cursor. */
    method SwitchIfOver()
      requires Valid()
      modifies this`curBiomeIdx, biomes
      ensures Valid()
      ensures Gen() == SwitchBiome(old(Gen()), biomeData, rng)
    {
      var curBiome := biomes[curBiomeIdx];
      if curBiome.startX + BIOMELENGTH < worldXGen {
        curBiomeIdx := (curBiomeIdx + 1) % biomes.Length;
        var randIdx := rng.biomePick(worldXGen) % |curBiome.json.NextTo|;
        var newType := curBiome.json.NextTo[randIdx];
        biomes[curBiomeIdx] := biomes[curBiomeIdx].(json := Lookup(biomeData, newType), startX := worldXGen, biomeType := newType);
      }
    }

    /** Writes the column `col` decided into its ring column, row by row;
        no other ring column changes. */
    method WriteColumn(col: Column)
      requires IsGrid(tiles)
      modifies tiles
      ensures Cells(tiles) == WriteCol(old(Cells(tiles)), col)
    {
      ghost var g := Cells(tiles);
      var arrX := ToBufferIndex(col.gen);
      var surfaceIm := GetSpriteImage(GrassTile);
      var subsurfaceIm := GetSpriteImage(DirtTile);
      if col.rocky {
        surfaceIm := GetSpriteImage(RockTile);
        subsurfaceIm := GetSpriteImage(RockTile);
      }
      var y := 0;
      while y < WORLDBUFFERHEIGHT
        invariant 0 <= y <= WORLDBUFFERHEIGHT
        invariant forall y' :: 0 <= y' < y ==> tiles[y', arrX] == Regenerated(old(tiles[y', arrX]), col, y')
        invariant forall y', x :: 0 <= y' < WORLDBUFFERHEIGHT && 0 <= x < WORLDBUFFERLEN && (x != arrX || y' >= y) ==>
                    tiles[y', x] == old(tiles[y', x])
      {
        var tile := tiles[y, arrX];
        tile := tile.(x := col.gen as real * TILEWIDTH);
        if y == col.groundY {
          tile := tile.(im := Some(surfaceIm), isPassable := false);
        } else if y > col.groundY {
          tile := tile.(im := Some(subsurfaceIm), isPassable := false);
        } else {
          tile := tile.(im := None, isPassable := true);
        }
        tiles[y, arrX] := tile;
        y := y + 1;
      }
      GridEq(Cells(tiles), WriteCol(g, col));
    }

    /** One pass of the generation loop: the column at the cursor, as
        `ColumnStep` decides it. Only that ring column of the grid is
        written; every row of it is regenerated. */
    method GenerateColumn() returns (col: Column)
      requires Valid()
      modifies this`worldXGen, this`curBiomeIdx, biomes, tiles
      ensures Valid()
      ensures (Gen(), col) == ColumnStep(old(Gen()), biomeData, noise, rng)
      ensures Cells(tiles) == WriteCol(old(Cells(tiles)), col)
    {
      var floorBase := biomes[curBiomeIdx].floorHeight;
      SwitchIfOver();
      ghost var t := Gen();
      var arrX := ToBufferIndex(worldXGen);
      var b := biomes[curBiomeIdx];
      var generateAmplitude := b.json.GenAmplitude;
      var groundY := floorBase + noise(arrX, b.json.GenFrequency, generateAmplitude);
      biomes[curBiomeIdx] := b.(floorHeight := floorBase);
      if b.startX + BIOMELENGTH < worldXGen + 1 {
        biomes[curBiomeIdx] := b.(floorHeight := groundY);
      }
      col := Column(worldXGen, groundY, b.biomeType == "rocky");
      assert biomes[..] == t.biomes[t.curIdx := biomes[curBiomeIdx]];
      WriteColumn(col);
      worldXGen := worldXGen + 1;
    }

    /** `checkWorldUpdate`: when fewer than 40 columns are ready past the
        view's left edge, generate until the cursor is 81 past it; otherwise
        change nothing. Returns the zombies rolled on the way. The last 120
        columns generated are in the grid as decided, and ring columns no
        generated column maps to are untouched. */
    method CheckWorldUpdate() returns (spawns: seq<Spawn>)
      requires Valid()
      modifies this`worldXGen, this`curBiomeIdx, biomes, tiles
      ensures Valid()
      ensures Generated(GenCount(old(worldXStart), old(worldXGen)), spawns)
    {
      if worldXStart + MINWORLDGENBUFFERLEN >= worldXGen {
        spawns := GenerateThrough(worldXStart + MAXWORLDGENBUFFERLEN);
      } else {
        spawns := [];
        assert GenCount(worldXStart, worldXGen) == 0;
        assert Run(Gen(), biomeData, noise, rng, 0) == (Gen(), []);
        assert Spawns([], rng) == [];
        assert Laid(Cells(tiles), Cells(tiles), worldXGen, []);
      }
    }

    /** The generation loop: columns from the cursor through `last`. */
    method GenerateThrough(last: nat) returns (spawns: seq<Spawn>)
      requires Valid() && worldXGen <= last + 1
      modifies this`worldXGen, this`curBiomeIdx, biomes, tiles
      ensures Valid()
      ensures Generated(last + 1 - old(worldXGen), spawns)
    {
      ghost var cols;
      spawns, cols := GenerateFrom(Gen(), worldXGen, Cells(tiles), last);
    }

    /** The generation loop, accounted from the state `s0` and grid `orig`
        it starts in at cursor `g0`: the columns `cols` it generates are
        the run of the column step, their spawns are returned, and the grid
        holds them. */
    method GenerateFrom(ghost s0: GenState, ghost g0: nat, ghost orig: seq<seq<Tile>>, last: nat)
      returns (spawns: seq<Spawn>, ghost cols: seq<Column>)
      requires Valid() && s0 == Gen() && g0 == worldXGen <= last + 1 && orig == Cells(tiles)
      modifies this`worldXGen, this`curBiomeIdx, biomes, tiles
      ensures Valid() && GridShape(orig) && worldXGen == last + 1
      ensures Run(s0, biomeData, noise, rng, last + 1 - g0) == (Gen(), cols)
      ensures spawns == Spawns(cols, rng)
      ensures Laid(Cells(tiles), orig, g0, cols)
    {
      cols := [];
      spawns := [];
      while last >= worldXGen
        invariant Valid()
        invariant g0 <= worldXGen <= last + 1
        invariant Run(s0, biomeData, noise, rng, worldXGen - g0) == (Gen(), cols)
        invariant spawns == Spawns(cols, rng)
        invariant Laid(Cells(tiles), orig, g0, cols)
        decreases last + 1 - worldXGen
      {
        var col;
        col, spawns := GeneratePass(s0, g0, orig, cols, spawns);
        cols := cols + [col];
      }
    }

    /** One pass of the generation loop: the column at the cursor, and the
        zombie its spawn roll gives. Carries the loop's account of what has
        been generated since the state `s0` at cursor `g0` one column on. */
    method GeneratePass(ghost s0: GenState, ghost g0: nat, ghost orig: seq<seq<Tile>>, ghost cols: seq<Column>, spawns: seq<Spawn>)
      returns (col: Column, spawns': seq<Spawn>)
      requires Valid() && GenValid(s0, biomeData) && GridShape(orig) && g0 <= worldXGen
      requires Run(s0, biomeData, noise, rng, worldXGen - g0) == (Gen(), cols)
      requires spawns == Spawns(cols, rng)
      requires Laid(Cells(tiles), orig, g0, cols)
      modifies this`worldXGen, this`curBiomeIdx, biomes, tiles
      ensures Valid() && worldXGen == old(worldXGen) + 1
      ensures Run(s0, biomeData, noise, rng, worldXGen - g0) == (Gen(), cols + [col])
      ensures spawns' == Spawns(cols + [col], rng)
      ensures Laid(Cells(tiles), orig, g0, cols + [col])
    {
      ghost var before := Cells(tiles);
      RunSnoc(s0, biomeData, noise, rng, worldXGen - g0);
      col := GenerateColumn();
      spawns' := spawns;
      if rng.spawnRoll(col.gen) < 1 {
        spawns' := spawns + [SpawnAt(col)];
      }
      SpawnsSnoc(cols, col, rng);
      LaidStep(before, Cells(tiles), orig, g0, cols, col);
    }

    /** The level's step: once the visible window has reached the level's
        width nothing changes and the end is reported (the world then lets
        the players leave). Otherwise the window becomes the camera's view
        in whole columns and generation is checked. */
    method Update(cam: Camera) returns (reachedEnd: bool, spawns: seq<Spawn>)
      requires Valid() && cam.Valid()
      modifies this`worldXStart, this`worldXEnd, this`worldXGen, this`curBiomeIdx, biomes, tiles
      ensures Valid()
      ensures reachedEnd <==> old(worldXEnd) >= worldWidth
      ensures reachedEnd ==>
        spawns == [] && worldXStart == old(worldXStart) && worldXEnd == old(worldXEnd) &&
        Gen() == old(Gen()) && Cells(tiles) == old(Cells(tiles))
      ensures !reachedEnd ==>
        worldXStart == Trunc(-cam.offX / TILEWIDTH) &&
        worldXEnd == worldXStart + Trunc(cam.screenWidth / TILEWIDTH) &&
        Generated(GenCount(worldXStart, old(worldXGen)), spawns)
    {
      if worldXEnd >= worldWidth {
        return true, [];
      }
      reachedEnd := false;
      var off := cam.GetRenderOffset();
      worldXStart := Trunc(-off.0 / TILEWIDTH);
      worldXEnd := worldXStart + Trunc(cam.screenWidth / TILEWIDTH);
      spawns := CheckWorldUpdate();
    }

    /** What `n` generated columns amount to, from the state at the start
        of the call (`old`), with `spawns` the zombies rolled. */
    twostate predicate Generated(n: nat, spawns: seq<Spawn>)
      reads this, biomes, tiles
    {
      old(Valid()) && Valid() &&
      var r := Run(old(Gen()), biomeData, noise, rng, n);
      Gen() == r.0 && spawns == Spawns(r.1, rng) && Laid(Cells(tiles), old(Cells(tiles)), old(worldXGen), r.1)
    }
  }

  // ---------------------------------------------------------------------
  // The world
  // ---------------------------------------------------------------------

  /** Whether some corner of box `a` lies in box `b`, bounds included,
      except that the bottom-left corner must lie strictly right of `b`'s
      left edge. */
  predicate Overlaps(a: Box, b: Box)
  {
    var topLeft := a.x >= b.x && a.x <= b.x + b.width && a.y >= b.y && a.y <= b.y + b.height;
    var topRight := a.x + a.width >= b.x && a.x + a.width <= b.x + b.width && a.y >= b.y && a.y <= b.y + b.height;
    var bottomLeft := a.x > b.x && a.x <= b.x + b.width && a.y + a.height >= b.y && a.y + a.height <= b.y + b.height;
    var bottomRight := a.x + a.width >= b.x && a.x + a.width <= b.x + b.width &&
                       a.y + a.height >= b.y && a.y + a.height <= b.y + b.height;
    topLeft || topRight || bottomLeft || bottomRight
  }

  /** Whether two boxes share a point. */
  predicate Intersect(a: Box, b: Box)
  {
    a.x <= b.x + b.width && b.x <= a.x + a.width && a.y <= b.y + b.height && b.y <= a.y + a.height
  }

  /** The corner test only reports boxes that do share a point, and it
      reports every box lying inside another. */
  lemma OverlapsSound(a: Box, b: Box)
    requires a.width >= 0.0 && a.height >= 0.0
    ensures Overlaps(a, b) ==> Intersect(a, b)
    ensures (b.x <= a.x && a.x + a.width <= b.x + b.width && b.y <= a.y && a.y + a.height <= b.y + b.height) ==>
              Overlaps(a, b)
  {
  }

  /** But a box crossing another, with no corner in it either way, is not
      reported: a horizontal bar across a vertical one. */
  lemma OverlapsMissesCrossing()
    ensures var a := Box(0.0, 10.0, 30.0, 10.0);
      var b := Box(10.0, 0.0, 10.0, 30.0);
      Intersect(a, b) && !Overlaps(a, b) && !Overlaps(b, a)
  {
  }

  /** Two 10 x 10 boxes, the second shifted by (5, 5): the corner test
      relates them both ways, so the pair scan lists each in the other's
      collisions. */
  lemma ShiftedBoxesOverlap()
    ensures var a := Box(0.0, 0.0, 10.0, 10.0);
      var b := Box(5.0, 5.0, 10.0, 10.0);
      Overlaps(a, b) && Overlaps(b, a)
  {
  }

  /** The motions of a list of entities. */
  function Motions(es: seq<Entity>): (ms: seq<Motion>)
    reads set e | e in es
    ensures |ms| == |es| && forall i :: 0 <= i < |es| ==> ms[i] == es[i].GetMotion()
  {
    seq(|es|, i requires 0 <= i < |es| reads set e | e in es => es[i].GetMotion())
  }

  /** The boxes of a list of entities, as the pair scan sees them. */
  function EntityBoxes(es: seq<Entity>): (boxes: seq<Box>)
    reads set e | e in es
    ensures |boxes| == |es| && forall i :: 0 <= i < |es| ==> boxes[i] == es[i].GetBox()
  {
    seq(|es|, i requires 0 <= i < |es| reads set e | e in es => es[i].GetBox())
  }

  /** Among the ordered pairs of positions the scan has visited before
      (i, j) — every pair with a first position below `i`, and those at `i`
      with a second position below `j` — some pair of two different
      positions whose boxes the corner test relates holds `e` and `o`, in
      one order or the other. */
  ghost predicate Found(es: seq<Entity>, boxes: seq<Box>, e: Entity, o: Entity, i: int, j: int)
    requires |boxes| == |es|
  {
    exists a, b :: 0 <= a < |es| && 0 <= b < |es| && (a < i || (a == i && b < j)) && a != b &&
      Overlaps(boxes[a], boxes[b]) && ((es[a] == e && es[b] == o) || (es[a] == o && es[b] == e))
  }

  /** `e` and `o` overlap in the sense of the pair scan: at two different
      positions of the list, one's box has a corner in the other's. */
  ghost predicate Partners(es: seq<Entity>, boxes: seq<Box>, e: Entity, o: Entity)
    requires |boxes| == |es|
  {
    Found(es, boxes, e, o, |es|, 0)
  }

  /** The collision lists of a list of entities. */
  function CollisionLists(es: seq<Entity>): (ls: seq<seq<Entity>>)
    reads set e | e in es
    ensures |ls| == |es| && forall a :: 0 <= a < |es| ==> ls[a] == es[a].collidingEntities
  {
    seq(|es|, a requires 0 <= a < |es| reads set e | e in es => es[a].collidingEntities)
  }

  /** Visiting the pair (i, j) adds exactly that pair. */
  lemma FoundStep(es: seq<Entity>, boxes: seq<Box>, i: int, j: int)
    requires |boxes| == |es| && 0 <= i < |es| && 0 <= j < |es|
    ensures forall e, o :: Found(es, boxes, e, o, i, j + 1) <==>
      Found(es, boxes, e, o, i, j) ||
      (i != j && Overlaps(boxes[i], boxes[j]) && ((es[i] == e && es[j] == o) || (es[i] == o && es[j] == e)))
  {
  }

  /** Finishing position `i` is starting position `i + 1`. */
  lemma FoundNextRow(es: seq<Entity>, boxes: seq<Box>, i: int)
    requires |boxes| == |es| && 0 <= i
    ensures forall e, o :: Found(es, boxes, e, o, i, |es|) <==> Found(es, boxes, e, o, i + 1, 0)
  {
  }

  /** The overlap relation of the scan is symmetric, and only relates
      entities of the list. */
  lemma PartnersSymmetric(es: seq<Entity>, boxes: seq<Box>, e: Entity, o: Entity)
    requires |boxes| == |es|
    ensures Partners(es, boxes, e, o) <==> Partners(es, boxes, o, e)
    ensures Partners(es, boxes, e, o) ==> e in es && o in es
  {
  }

  /** An entity listed once is related to itself by no pair: the scan
      skips equal positions. */
  lemma NoSelfPartner(es: seq<Entity>, boxes: seq<Box>, e: Entity)
    requires |boxes| == |es| && Distinct(es)
    ensures !Partners(es, boxes, e, e)
  {
  }

  /** What the entity pass makes of a kept entity `e` whose motion was
      `m` and gravity multiplier `mult`, against grid `g` and view `v`:
      `gravity` times the multiplier added to the vertical speed, then one
      physics step with the entity's size and camera behaviour. */
  function Fallen(g: seq<seq<Tile>>, v: View, gravity: real, e: Entity, m: Motion, mult: real): Motion
    requires GridShape(g)
  {
    Step(g, v, m.(vy := m.vy + gravity * mult), e.width, e.height, e.stayWithinCamera)
  }

  /** The gravity multipliers of a list of entities. */
  function Multipliers(es: seq<Entity>): (ms: seq<real>)
    reads set e | e in es
    ensures |ms| == |es| && forall i :: 0 <= i < |es| ==> ms[i] == es[i].gravityMultiplier
  {
    seq(|es|, i requires 0 <= i < |es| reads set e | e in es => es[i].gravityMultiplier)
  }

  /** What the entity pass makes of each entity of `es`, were it kept,
      from its motion and multiplier before the pass. */
  ghost function Targets(g: seq<seq<Tile>>, v: View, gravity: real, es: seq<Entity>, motions: seq<Motion>, mults: seq<real>): (ts: seq<Motion>)
    requires GridShape(g) && |motions| == |es| == |mults|
    ensures |ts| == |es| && forall k :: 0 <= k < |es| ==> ts[k] == Fallen(g, v, gravity, es[k], motions[k], mults[k])
  {
    seq(|es|, k requires 0 <= k < |es| => Fallen(g, v, gravity, es[k], motions[k], mults[k]))
  }

  /** The removal flags of a list of entities. */
  function Flags(es: seq<Entity>): (f: seq<bool>)
    reads set e | e in es
    ensures |f| == |es| && forall i :: 0 <= i < |es| ==> f[i] == es[i].shouldRemove
  {
    seq(|es|, i requires 0 <= i < |es| reads set e | e in es => es[i].shouldRemove)
  }

  /** The targets of a list of zombies. */
  function ZombieTargets(zs: seq<Zombie>): (ts: seq<Player?>)
    reads set z | z in zs :: z.zai
    ensures |ts| == |zs| && forall i :: 0 <= i < |zs| ==> ts[i] == zs[i].zai.p
  {
    seq(|zs|, i requires 0 <= i < |zs| reads set z | z in zs :: z.zai => zs[i].zai.p)
  }

  /** The removal flags of a list of zombies. */
  function ZombieFlags(zs: seq<Zombie>): (f: seq<bool>)
    reads set z | z in zs :: z.entity
    ensures |f| == |zs| && forall i :: 0 <= i < |zs| ==> f[i] == zs[i].entity.shouldRemove
  {
    seq(|zs|, i requires 0 <= i < |zs| reads set z | z in zs :: z.entity => zs[i].entity.shouldRemove)
  }

  /** The players' boxes, as the camera sees them. */
  function Boxes(players: seq<Player>): (boxes: seq<Box>)
    reads set p | p in players :: p.entity
    ensures |boxes| == |players| && forall i :: 0 <= i < |players| ==> boxes[i] == players[i].entity.GetBox()
  {
    seq(|players|, i requires 0 <= i < |players| reads set p | p in players :: p.entity => players[i].entity.GetBox())
  }

  /** The zombies' entities. */
  function ZombieEntities(zs: seq<Zombie>): (es: seq<Entity>)
    ensures |es| == |zs| && forall i :: 0 <= i < |zs| ==> es[i] == zs[i].entity
  {
    seq(|zs|, i requires 0 <= i < |zs| => zs[i].entity)
  }

  /** The positions, in order, of the aims that fire. */
  function Shooters(aims: seq<Aim>): (ks: seq<nat>)
    ensures forall j :: 0 <= j < |ks| ==> ks[j] < |aims|
  {
    if aims == [] then []
    else
      var n := |aims| - 1;
      Shooters(aims[..n]) + (if aims[n].fires then [n] else [])
  }

  /** `Shooters` lists exactly the aims that fire, each once, in increasing
      order. */
  lemma {:induction false} ShootersAreFiring(aims: seq<Aim>)
    ensures forall k :: k in Shooters(aims) <==> 0 <= k < |aims| && aims[k].fires
    ensures forall a, b :: 0 <= a < b < |Shooters(aims)| ==> Shooters(aims)[a] < Shooters(aims)[b]
  {
    if aims != [] {
      var n := |aims| - 1;
      var init := aims[..n];
      ShootersAreFiring(init);
      assert forall k :: 0 <= k < n ==> init[k] == aims[k];
    }
  }

  /** `fired` holds, in order, one bullet for each aim that fires, each
      shot with that aim. */
  ghost predicate Volley(aims: seq<Aim>, fired: seq<Entity>)
    reads set b | b in fired
  {
    var ks := Shooters(aims);
    |fired| == |ks| && forall j :: 0 <= j < |ks| ==> ShotBy(fired[j], aims[ks[j]])
  }

  /** One more aim: its bullet, if it fires, extends the volley. */
  lemma VolleyStep(aims: seq<Aim>, i: nat, fired: seq<Entity>, bullet: Entity?)
    requires i < |aims| && Volley(aims[..i], fired)
    requires bullet != null <==> aims[i].fires
    requires bullet != null ==> ShotBy(bullet, aims[i])
    ensures Volley(aims[..i + 1], fired + (if bullet != null then [bullet] else []))
  {
    assert aims[..i + 1][..i] == aims[..i];
  }

  /** A projectile: an entity the world also lists as a projectile. Its
      own behaviour is not part of this model. */
  class Projectile {
    const entity: Entity

    constructor (entity: Entity)
      ensures this.entity == entity
    {
      this.entity := entity;
    }
  }

  /** The game world: camera, tile grid, level, the players (fixed for the
      world's life) and the lists of objects, entities, zombies and
      projectiles, with gravity and the end-of-level flags. */
  class World {
    const camera: Camera
    const tiles: array2<Tile>
    const level: Level
    const playerObjects: seq<Player>
    ghost const playerEntities: set<Entity>
    var gameObjects: seq<Entity>
    var entityObjects: seq<Entity>
    var zombieObjects: seq<Zombie>
    var projectiles: seq<Projectile>
    const gravity: real
    var inited: bool
    var canLeave: bool
    var allPlayersDoneOrDead: bool

    /** The level writes the world's grid and is consistent, the camera is
        valid, players are distinct, no entity is listed twice, and every
        zombie's AI drives that zombie and targets nobody or one of the
        players. */
    ghost predicate Valid()
      reads this`zombieObjects, this`entityObjects, camera, level, level.biomes, set z | z in zombieObjects :: z.zai
    {
      IsGrid(tiles) && level.tiles == tiles && level.Valid() && camera.Valid() && PlayersDistinct() &&
      Distinct(entityObjects) && ZombiesBound()
    }

    /** After the pair scan: every unflagged entity's collision list holds
        exactly its partners in the entity list (which lists every partner,
        by `PartnersSymmetric`). */
    ghost predicate CollisionsRebuilt()
      reads this`entityObjects, set e | e in entityObjects
    {
      (forall e, o :: e in entityObjects && !e.shouldRemove && o in e.collidingEntities ==>
         Partners(entityObjects, EntityBoxes(entityObjects), e, o)) &&
      (forall e, o :: (e in entityObjects && !e.shouldRemove && o in entityObjects &&
                       Partners(entityObjects, EntityBoxes(entityObjects), e, o)) ==> o in e.collidingEntities)
    }

    /** Every zombie's AI drives that zombie and targets nobody or one of
        the players. */
    ghost predicate ZombiesBound()
      reads this`zombieObjects, set z | z in zombieObjects :: z.zai
    {
      forall z :: z in zombieObjects ==> z.zai.z == z.entity && (z.zai.p == null || z.zai.p in playerObjects)
    }

    /** Every player is flagged for removal. */
    ghost predicate AllPlayersFlagged()
      reads (set p | p in playerObjects :: p.entity)`shouldRemove
    {
      forall i :: 0 <= i < |playerObjects| ==> playerObjects[i].entity.shouldRemove
    }

    /** The players' entities are distinct objects, all in `playerEntities`. */
    ghost predicate PlayersDistinct()
    {
      (forall i, j :: 0 <= i < j < |playerObjects| ==> playerObjects[i].entity != playerObjects[j].entity) &&
      (forall p :: p in playerObjects ==> p.entity in playerEntities)
    }

    /** Every player's aim, in order. */
    function Aims(): (aims: seq<Aim>)
      reads set p | p in playerObjects :: p.entity, set p | p in playerObjects :: p.pi
      ensures |aims| == |playerObjects| && forall k :: 0 <= k < |playerObjects| ==> aims[k] == AimOf(playerObjects[k])
    {
      seq(|playerObjects|, k requires 0 <= k < |playerObjects|
        reads set p | p in playerObjects :: p.entity, set p | p in playerObjects :: p.pi => AimOf(playerObjects[k]))
    }

    /** `NewWorld`: the camera at the origin; every player placed one tile
        in on both axes, not flagged, and listed as an object and an
        entity; gravity .25; a level 100 columns wide with its grid
        initialised. */
    constructor NewWorld(players: seq<Player>, biomeData: map<string, BiomeJson>, noise: Noise, rng: Rng)
      requires WellFormed(biomeData)
      requires forall i, j :: 0 <= i < j < |players| ==> players[i].entity != players[j].entity
      modifies set p | p in players :: p.entity
      ensures Valid() && inited && !canLeave && !allPlayersDoneOrDead
      ensures fresh(camera) && fresh(tiles) && fresh(level) && fresh(level.biomes)
      ensures playerObjects == players && zombieObjects == [] && projectiles == []
      ensures gameObjects == entityObjects && |entityObjects| == |players|
      ensures forall i :: 0 <= i < |players| ==> entityObjects[i] == players[i].entity
      ensures forall p :: p in players ==>
                p.entity.x == PLAYERWORLDSTARTX && p.entity.y == PLAYERWORLDSTARTX && !p.entity.shouldRemove
      ensures gravity == GRAVITY
      ensures camera.offX == 0.0 && camera.offY == 0.0
      ensures level.worldWidth == LEVELWIDTH && level.Gen() == StartState(biomeData)
      ensures level.biomeData == biomeData && level.noise == noise && level.rng == rng
      ensures forall y, x :: 0 <= y < WORLDBUFFERHEIGHT && 0 <= x < WORLDBUFFERLEN ==>
                tiles[y, x] == NewTile(0, (x * 32) as real, (y * 32) as real, None)
    {
      var objs := PlacePlayers(players);
      camera := new Camera.NewCamera();
      playerObjects := players;
      playerEntities := set p | p in players :: p.entity;
      gameObjects, entityObjects := objs, objs;
      zombieObjects, projectiles := [], [];
      gravity := 0.25;
      var grid := new Tile[WORLDBUFFERHEIGHT, WORLDBUFFERLEN]((y, x) => Tile(0, 0.0, 0.0, 0.0, 0.0, None, false));
      tiles := grid;
      var lvl := new Level.NewLevel(grid, 100, biomeData, noise, rng);
      lvl.InitWorld();
      level := lvl;
      canLeave, allPlayersDoneOrDead := false, false;
      inited := true;
    }

    /** The player loop of `NewWorld`: each player is placed one tile in
        on both axes and not flagged; their entities are listed in order. */
    static method PlacePlayers(players: seq<Player>) returns (objs: seq<Entity>)
      modifies set p | p in players :: p.entity
      ensures |objs| == |players| && forall k :: 0 <= k < |players| ==> objs[k] == players[k].entity
      ensures forall p :: p in players ==>
                p.entity.x == PLAYERWORLDSTARTX && p.entity.y == PLAYERWORLDSTARTX && !p.entity.shouldRemove
    {
      objs := [];
      var i := 0;
      while i < |players|
        invariant 0 <= i <= |players|
        invariant |objs| == i && forall k :: 0 <= k < i ==> objs[k] == players[k].entity
        invariant forall k :: 0 <= k < i ==>
                    players[k].entity.x == PLAYERWORLDSTARTX && players[k].entity.y == PLAYERWORLDSTARTX &&
                    !players[k].entity.shouldRemove
      {
        var player := players[i];
        player.entity.x := PLAYERWORLDSTARTX;
        player.entity.y := PLAYERWORLDSTARTX;
        player.entity.shouldRemove := false;
        objs := objs + [player.entity];
        i := i + 1;
      }
    }

    /** One frame of the world at clock reading `now`: the camera and the
        level move on, then the object passes run. */
    method Update(now: int)
      requires Valid()
      modifies camera`offX, camera`offY
      modifies level`worldXStart, level`worldXEnd, level`worldXGen, level`curBiomeIdx, level.biomes, tiles
      modifies this`canLeave, this`allPlayersDoneOrDead, this`gameObjects, this`entityObjects, this`zombieObjects
      modifies playerEntities`shouldRemove, playerEntities`vx, playerEntities`vy, playerEntities`health
      modifies (set z | z in zombieObjects :: z.zai)`p, (set z | z in zombieObjects :: z.zai)`lastAttack
      modifies (set z | z in zombieObjects :: z.entity)`vx
      modifies (set e | e in entityObjects)`x, (set e | e in entityObjects)`y
      modifies (set e | e in entityObjects)`vx, (set e | e in entityObjects)`vy
      modifies (set e | e in entityObjects)`collidingEntities
      ensures Valid()
      ensures camera.offX <= old(camera.offX)
      ensures canLeave <==> old(canLeave) || old(level.worldXEnd) >= level.worldWidth
      ensures allPlayersDoneOrDead <==> AllPlayersFlagged()
      ensures CollisionsRebuilt()
      ensures forall z :: z in old(zombieObjects) && old(z.zai.p) != null ==> z.zai.p == old(z.zai.p)
    {
      Scroll();
      ghost var gen := level.Gen();
      RunPasses(now);
      assert level.Gen() == gen;
    }

    /** The first half of a frame: the camera follows the players; the
        level scrolls and generates, or, once its end has been on screen,
        lets the players leave; the zombies it rolled join the world. */
    method Scroll()
      requires Valid()
      modifies camera`offX, camera`offY
      modifies level`worldXStart, level`worldXEnd, level`worldXGen, level`curBiomeIdx, level.biomes, tiles
      modifies this`canLeave, this`gameObjects, this`entityObjects, this`zombieObjects
      ensures Valid()
      ensures camera.offX <= old(camera.offX)
      ensures canLeave <==> old(canLeave) || old(level.worldXEnd) >= level.worldWidth
      ensures forall z :: z in old(zombieObjects) ==> z in zombieObjects
      ensures forall z :: z in zombieObjects ==> z in old(zombieObjects) || (fresh(z.zai) && fresh(z.entity))
      ensures forall e :: e in entityObjects ==> e in old(entityObjects) || fresh(e)
    {
      camera.Update(Boxes(playerObjects), level.worldXEnd, level.worldWidth);
      var reachedEnd, spawns := level.Update(camera);
      if reachedEnd {
        canLeave := true;
      }
      AddZombies(spawns);
    }

    /** The second half of a frame: the player pass, then the object,
        zombie and entity passes and the pair scan at clock reading
        `now`. */
    method RunPasses(now: int)
      requires IsGrid(tiles) && PlayersDistinct() && Distinct(entityObjects) && ZombiesBound()
      modifies this`allPlayersDoneOrDead, this`gameObjects, this`entityObjects, this`zombieObjects
      modifies playerEntities`shouldRemove, playerEntities`vx, playerEntities`vy, playerEntities`health
      modifies (set z | z in zombieObjects :: z.zai)`p, (set z | z in zombieObjects :: z.zai)`lastAttack
      modifies (set z | z in zombieObjects :: z.entity)`vx
      modifies (set e | e in entityObjects)`x, (set e | e in entityObjects)`y
      modifies (set e | e in entityObjects)`vx, (set e | e in entityObjects)`vy
      modifies (set e | e in entityObjects)`collidingEntities
      ensures ZombiesBound() && Distinct(entityObjects) && CollisionsRebuilt()
      ensures allPlayersDoneOrDead <==> AllPlayersFlagged()
      ensures forall z :: z in old(zombieObjects) && old(z.zai.p) != null ==> z.zai.p == old(z.zai.p)
    {
      UpdatePlayers();
      ObjectPasses(now);
    }

    /** The passes after the player pass: objects, zombies at clock
        reading `now`, entities, then the pair scan. Zombies stay bound
        to their entities and keep their targets. */
    method ObjectPasses(now: int)
      requires IsGrid(tiles) && PlayersDistinct() && Distinct(entityObjects) && ZombiesBound()
      modifies this`gameObjects, this`entityObjects, this`zombieObjects, playerEntities`health
      modifies (set z | z in zombieObjects :: z.zai)`p, (set z | z in zombieObjects :: z.zai)`lastAttack
      modifies (set z | z in zombieObjects :: z.entity)`vx
      modifies (set e | e in entityObjects)`x, (set e | e in entityObjects)`y
      modifies (set e | e in entityObjects)`vx, (set e | e in entityObjects)`vy
      modifies (set e | e in entityObjects)`collidingEntities
      ensures ZombiesBound() && Distinct(entityObjects) && CollisionsRebuilt()
      ensures forall z :: z in old(zombieObjects) && old(z.zai.p) != null ==> z.zai.p == old(z.zai.p)
    {
      SweepGameObjects();
      UpdateZombies(now);
      EntityPasses();
    }

    /** The entity pass, then the pair scan over the entities it kept:
        the list is swept and stays free of repeats; every unflagged entity
        has fallen and taken its physics step, and its collision list is
        rebuilt to exactly its partners. */
    method EntityPasses()
      requires IsGrid(tiles) && Distinct(entityObjects)
      modifies this`entityObjects
      modifies (set e | e in entityObjects)`x, (set e | e in entityObjects)`y
      modifies (set e | e in entityObjects)`vx, (set e | e in entityObjects)`vy
      modifies (set e | e in entityObjects)`collidingEntities
      ensures entityObjects == Sweep(old(entityObjects), old(Flags(entityObjects)))
      ensures Distinct(entityObjects)
      ensures forall k :: 0 <= k < |old(entityObjects)| && !old(entityObjects[k].shouldRemove) ==>
        var e := old(entityObjects[k]);
        e.GetMotion() == Fallen(Cells(tiles), camera.GetView(), gravity, e, old(e.GetMotion()), e.gravityMultiplier)
      ensures CollisionsRebuilt()
    {
      ghost var es, flags := entityObjects, Flags(entityObjects);
      StepEntities();
      SweepWithin(es, flags);
      SweepKeepsDistinct(es, flags);
      forall e | e in entityObjects && !e.shouldRemove
        ensures e.collidingEntities == []
      {
        var k :| 0 <= k < |es| && es[k] == e;
      }
      FindCollisions();
    }

    /** `AddEntity`: the entity joins the objects and the entities. */
    method AddEntity(e: Entity)
      modifies this`gameObjects, this`entityObjects
      ensures gameObjects == old(gameObjects) + [e] && entityObjects == old(entityObjects) + [e]
    {
      gameObjects := gameObjects + [e];
      entityObjects := entityObjects + [e];
    }

    /** `AddProjectile`: its entity is added, and it joins the projectiles. */
    method AddProjectile(b: Projectile)
      modifies this`gameObjects, this`entityObjects, this`projectiles
      ensures gameObjects == old(gameObjects) + [b.entity] && entityObjects == old(entityObjects) + [b.entity]
      ensures projectiles == old(projectiles) + [b]
    {
      AddEntity(b.entity);
      projectiles := projectiles + [b];
    }
  
    /** The zombies the level rolled join the world in order: each a new
        zombie at its spawn point with its column's speed and hearing rolls,
        listed as a zombie, an object and an entity. */
    method AddZombies(spawns: seq<Spawn>)
      requires Valid()
      modifies this`zombieObjects, this`gameObjects, this`entityObjects
      ensures Valid()
      ensures |zombieObjects| == |old(zombieObjects)| + |spawns| && zombieObjects[..|old(zombieObjects)|] == old(zombieObjects)
      ensures var added := ZombieEntities(zombieObjects[|old(zombieObjects)|..]);
        entityObjects == old(entityObjects) + added && gameObjects == old(gameObjects) + added
      ensures forall j :: |old(zombieObjects)| <= j < |zombieObjects| ==>
        var z := zombieObjects[j];
        fresh(z.entity) && fresh(z.zai) && SpawnedAt(z, spawns[j - |old(zombieObjects)|])
    {
      var n0 := |zombieObjects|;
      var i := 0;
      while i < |spawns|
        invariant 0 <= i <= |spawns|
        invariant ZombiesBound() && Distinct(entityObjects)
        invariant |zombieObjects| == n0 + i && zombieObjects[..n0] == old(zombieObjects)
        invariant var added := ZombieEntities(zombieObjects[n0..]);
          entityObjects == old(entityObjects) + added && gameObjects == old(gameObjects) + added
        invariant forall j :: n0 <= j < |zombieObjects| ==>
          var z := zombieObjects[j];
          fresh(z.entity) && fresh(z.zai) && SpawnedAt(z, spawns[j - n0])
      {
        ghost var prev := zombieObjects;
        var z := AddZombie(spawns[i]);
        assert zombieObjects[n0..] == prev[n0..] + [z];
        i := i + 1;
      }
    }

    /** The zombie the world spawns for `sp`: at the spawn point, at full
        health, not flagged, with the speed and hearing its column rolled. */
    ghost predicate SpawnedAt(z: Zombie, sp: Spawn)
      reads z.entity, z.zai
    {
      z.entity.x == sp.x && z.entity.y == sp.y &&
      z.entity.health == ZombieHealth && !z.entity.shouldRemove &&
      z.zai.speed == Speed(level.rng.speedRoll(sp.gen)) &&
      z.zai.hearingDistance == HearingDistance(level.rng.hearingRoll(sp.gen))
    }

    /** One spawn: a new zombie, listed as a zombie, an object and an
        entity. */
    method AddZombie(sp: Spawn) returns (z: Zombie)
      modifies this`zombieObjects, this`gameObjects, this`entityObjects
      ensures fresh(z.entity) && fresh(z.zai) && z.zai.z == z.entity && z.zai.p == null && SpawnedAt(z, sp)
      ensures zombieObjects == old(zombieObjects) + [z]
      ensures gameObjects == old(gameObjects) + [z.entity] && entityObjects == old(entityObjects) + [z.entity]
    {
      z := new Zombie.NewZombie(sp.x, sp.y, level.rng.speedRoll(sp.gen), level.rng.hearingRoll(sp.gen));
      zombieObjects := zombieObjects + [z];
      AddEntity(z.entity);
    }

    /** The player pass: a player whose x is off screen is flagged for
        removal; the world's flag says whether every player is flagged; each
        player's controls set its velocity, and the bullets fired join the
        world as new entities. */
    method UpdatePlayers()
      requires IsGrid(tiles) && PlayersDistinct() && Distinct(entityObjects)
      modifies this`allPlayersDoneOrDead, this`gameObjects, this`entityObjects
      modifies playerEntities`shouldRemove, playerEntities`vx, playerEntities`vy
      ensures allPlayersDoneOrDead <==> AllPlayersFlagged()
      ensures forall i :: 0 <= i < |playerObjects| ==> PlayerStepped(playerObjects[i])
      ensures |entityObjects| >= |old(entityObjects)| && entityObjects[..|old(entityObjects)|] == old(entityObjects)
      ensures gameObjects == old(gameObjects) + entityObjects[|old(entityObjects)|..]
      ensures forall e :: e in entityObjects ==> e in old(entityObjects) || fresh(e)
      ensures Volley(old(Aims()), entityObjects[|old(entityObjects)|..])
      ensures Distinct(entityObjects)
    {
      var allDone, fired := StepPlayers();
      Publish(allDone, fired);
    }

    /** The end of the player pass: the flag is set and the fired bullets
        join the objects and the entities, which stay free of repeats. */
    method Publish(allDone: bool, fired: seq<Entity>)
      requires Distinct(entityObjects) && Distinct(fired)
      requires forall e :: e in fired ==> e !in entityObjects
      modifies this`allPlayersDoneOrDead, this`gameObjects, this`entityObjects
      ensures allPlayersDoneOrDead == allDone
      ensures gameObjects == old(gameObjects) + fired && entityObjects == old(entityObjects) + fired
      ensures Distinct(entityObjects)
    {
      DistinctAppend(entityObjects, fired);
      allPlayersDoneOrDead := allDone;
      gameObjects := gameObjects + fired;
      entityObjects := entityObjects + fired;
    }

    /** The loop of the player pass: every player steps in order, and the
        bullets fired are collected. */
    method StepPlayers() returns (allDone: bool, fired: seq<Entity>)
      requires IsGrid(tiles) && PlayersDistinct()
      modifies playerEntities`shouldRemove, playerEntities`vx, playerEntities`vy
      ensures allDone <==> AllPlayersFlagged()
      ensures forall i :: 0 <= i < |playerObjects| ==> PlayerStepped(playerObjects[i])
      ensures forall e :: e in fired ==> fresh(e)
      ensures Distinct(fired) && Volley(old(Aims()), fired)
    {
      ghost var targets, aims := PlayerTargets(), Aims();
      allDone := true;
      fired := [];
      var i := 0;
      while i < |playerObjects|
        invariant 0 <= i <= |playerObjects|
        invariant allDone <==> forall k :: 0 <= k < i ==> playerObjects[k].entity.shouldRemove
        invariant forall k :: 0 <= k < i ==>
                    var e := playerObjects[k].entity; (e.shouldRemove, e.vx, e.vy) == targets[k]
        invariant forall k :: i <= k < |playerObjects| ==> StepTarget(playerObjects[k]) == targets[k]
        invariant forall e :: e in fired ==> fresh(e) && e !in playerEntities
        invariant Distinct(fired) && Volley(aims[..i], fired)
      {
        assert AimOf(playerObjects[i]) == old(AimOf(playerObjects[i])) == aims[i];
        allDone, fired := PlayerPass(i, targets, aims, allDone, fired);
        i := i + 1;
      }
      assert aims[..i] == aims;
    }

    /** What the player pass makes of every player, in order. */
    function PlayerTargets(): (ts: seq<(bool, real, real)>)
      requires IsGrid(tiles)
      reads playerEntities, set p | p in playerObjects :: p.pi, camera, tiles
      reads set p | p in playerObjects :: p.entity
      ensures |ts| == |playerObjects| && forall k :: 0 <= k < |playerObjects| ==> ts[k] == StepTarget(playerObjects[k])
    {
      seq(|playerObjects|, k requires 0 <= k < |playerObjects|
        reads playerEntities, set p | p in playerObjects :: p.pi, camera, tiles, set p | p in playerObjects :: p.entity =>
        StepTarget(playerObjects[k]))
    }

    /** One player of the player loop, at position `i`: its flag and
        velocity become its target; the flag joins the running conjunction
        and a bullet it fires joins `fired`. */
    method PlayerPass(i: nat, ghost targets: seq<(bool, real, real)>, ghost aims: seq<Aim>, allDone: bool, fired: seq<Entity>)
      returns (allDone': bool, fired': seq<Entity>)
      requires IsGrid(tiles) && PlayersDistinct() && i < |playerObjects| == |targets|
      requires allDone <==> forall k :: 0 <= k < i ==> playerObjects[k].entity.shouldRemove
      requires forall k :: 0 <= k < i ==>
                 var e := playerObjects[k].entity; (e.shouldRemove, e.vx, e.vy) == targets[k]
      requires forall k :: i <= k < |playerObjects| ==> StepTarget(playerObjects[k]) == targets[k]
      requires |aims| == |playerObjects| && AimOf(playerObjects[i]) == aims[i]
      requires Distinct(fired) && Volley(aims[..i], fired)
      requires forall e :: e in fired ==> e !in playerEntities
      modifies playerObjects[i].entity`shouldRemove, playerObjects[i].entity`vx, playerObjects[i].entity`vy
      ensures allDone' <==> forall k :: 0 <= k < i + 1 ==> playerObjects[k].entity.shouldRemove
      ensures forall k :: 0 <= k < i + 1 ==>
                var e := playerObjects[k].entity; (e.shouldRemove, e.vx, e.vy) == targets[k]
      ensures forall k :: i + 1 <= k < |playerObjects| ==> StepTarget(playerObjects[k]) == targets[k]
      ensures forall e :: e in fired' ==> e in fired || fresh(e)
      ensures Distinct(fired') && Volley(aims[..i + 1], fired')
    {
      var bullet := UpdatePlayer(playerObjects[i]);
      VolleyStep(aims, i, fired, bullet);
      allDone' := allDone && playerObjects[i].entity.shouldRemove;
      fired' := fired;
      if bullet != null {
        fired' := fired + [bullet];
      }
    }

    /** What the player pass makes of `pl`'s removal flag and velocity:
        flagged if it was or its x is off screen; horizontal speed zero
        while the left trigger is held and five times the stick's second
        axis otherwise; vertical speed cut by 8.5 if B is held while on the
        ground. */
    function StepTarget(pl: Player): (bool, real, real)
      requires IsGrid(tiles)
      reads pl.entity`shouldRemove, pl.entity`x, pl.entity`y, pl.entity`vy, pl.pi, camera, tiles
    {
      (pl.entity.shouldRemove || !camera.IsInsideCamera(pl.entity.x, -1.0),
       if pl.pi.IsButtonPressed(JoyConTriggerLeft) then 0.0 else 5.0 * pl.pi.GetAxes().1,
       pl.entity.vy - (if pl.pi.IsButtonPressed(JoyConB) && pl.OnGround(tiles) then 8.5 else 0.0))
    }

    /** `pl`'s removal flag and velocity are what the player pass makes of
        them. */
    twostate predicate PlayerStepped(pl: Player)
      requires IsGrid(tiles)
      reads pl.entity
    {
      (pl.entity.shouldRemove, pl.entity.vx, pl.entity.vy) == old(StepTarget(pl))
    }

    /** One player of the player pass: flagged once off screen, then
        updated from its controller; a bullet it fires is returned. */
    method UpdatePlayer(pl: Player) returns (bullet: Entity?)
      requires IsGrid(tiles)
      modifies pl.entity`shouldRemove, pl.entity`vx, pl.entity`vy
      ensures (pl.entity.shouldRemove, pl.entity.vx, pl.entity.vy) == old(StepTarget(pl))
      ensures bullet != null <==> old(pl.pi.IsButtonPressed(JoyConA))
      ensures bullet != null ==> fresh(bullet) && ShotBy(bullet, old(AimOf(pl)))
    {
      if !camera.IsInsideCamera(pl.entity.x, -1.0) {
        pl.entity.shouldRemove := true;
      }
      bullet := pl.Update(tiles);
    }

    /** The object pass: the list of objects is walked as it was, and each
        object flagged for removal is taken out with `Remove` at its
        original index. */
    method SweepGameObjects()
      modifies this`gameObjects
      ensures gameObjects == Sweep(old(gameObjects), old(Flags(gameObjects)))
    {
      ghost var flags := Flags(gameObjects);
      var objs := gameObjects;
      var i := 0;
      while i < |objs|
        invariant 0 <= i <= |objs| && objs == old(gameObjects)
        invariant gameObjects == Sweep(objs, flags[..i])
      {
        if objs[i].shouldRemove {
          gameObjects := Removed(gameObjects, i);
        }
        assert flags[..i + 1][..i] == flags[..i];
        i := i + 1;
      }
      assert flags[..i] == flags;
    }

    /** The zombie pass: every zombie of the list as it was is updated
        against the players at clock reading `now`, and each flagged one
        is taken out with `Remove` at its original index. A zombie keeps
        any target it had, and every target is one of the players. */
    method UpdateZombies(now: int)
      requires PlayersDistinct() && ZombiesBound()
      modifies this`zombieObjects, (set z | z in zombieObjects :: z.zai)`p, (set z | z in zombieObjects :: z.zai)`lastAttack
      modifies (set z | z in zombieObjects :: z.entity)`vx, playerEntities`health
      ensures ZombiesBound()
      ensures zombieObjects == Sweep(old(zombieObjects), old(ZombieFlags(zombieObjects)))
      ensures forall z :: z in old(zombieObjects) && old(z.zai.p) != null ==> z.zai.p == old(z.zai.p)
    {
      ghost var flags, targets := ZombieFlags(zombieObjects), ZombieTargets(zombieObjects);
      var zs := zombieObjects;
      var i := 0;
      while i < |zs|
        invariant 0 <= i <= |zs|
        invariant zombieObjects == Sweep(zs, flags[..i])
        invariant forall z :: z in zs ==> z.zai.z == z.entity && (z.zai.p == null || z.zai.p in playerObjects)
        invariant forall k :: 0 <= k < |zs| && targets[k] != null ==> zs[k].zai.p == targets[k]
      {
        ZombiePass(zs, i, flags, targets, now);
        i := i + 1;
      }
      assert flags[..i] == flags;
      SweepWithin(zs, flags);
      forall z | z in zs && old(z.zai.p) != null
        ensures z.zai.p == old(z.zai.p)
      {
        var k :| 0 <= k < |zs| && zs[k] == z;
      }
    }

    /** One zombie of the zombie loop, at position `i` of the list `zs` as
        it was: it is updated, then removed at `i` if flagged. */
    method ZombiePass(zs: seq<Zombie>, i: nat, ghost flags: seq<bool>, ghost targets: seq<Player?>, now: int)
      requires PlayersDistinct() && i < |zs| == |flags| == |targets| && flags[i] == zs[i].entity.shouldRemove
      requires zombieObjects == Sweep(zs, flags[..i])
      requires forall z :: z in zs ==> z.zai.z == z.entity && (z.zai.p == null || z.zai.p in playerObjects)
      requires forall k :: 0 <= k < |zs| && targets[k] != null ==> zs[k].zai.p == targets[k]
      modifies this`zombieObjects, zs[i].zai`p, zs[i].zai`lastAttack, zs[i].entity`vx, playerEntities`health
      ensures zombieObjects == Sweep(zs, flags[..i + 1])
      ensures forall z :: z in zs ==> z.zai.z == z.entity && (z.zai.p == null || z.zai.p in playerObjects)
      ensures forall k :: 0 <= k < |zs| && targets[k] != null ==> zs[k].zai.p == targets[k]
    {
      var zombie := zs[i];
      UpdateZombie(zombie, now);
      SweepSnoc(zs, flags, i);
      if zombie.entity.shouldRemove {
        zombieObjects := Removed(zombieObjects, i);
      }
    }

    /** One zombie of the zombie pass: its AI's step against the players. */
    method UpdateZombie(zombie: Zombie, now: int)
      requires PlayersDistinct()
      requires zombie.zai.z == zombie.entity && (zombie.zai.p == null || zombie.zai.p in playerObjects)
      modifies zombie.zai`p, zombie.zai`lastAttack, zombie.entity`vx, playerEntities`health
      ensures zombie.zai.p == null || zombie.zai.p in playerObjects
      ensures old(zombie.zai.p) != null ==> zombie.zai.p == old(zombie.zai.p)
    {
      zombie.Update(playerObjects, now);
    }

    /** The entity pass: the list of entities is walked as it was; a
        flagged entity is taken out with `Remove` at its original index,
        any other falls, takes its physics step and forgets its
        collisions. When no entity is listed twice, each unflagged one has
        done this exactly once. */
    method StepEntities()
      requires IsGrid(tiles)
      modifies this`entityObjects
      modifies (set e | e in entityObjects)`x, (set e | e in entityObjects)`y
      modifies (set e | e in entityObjects)`vx, (set e | e in entityObjects)`vy
      modifies (set e | e in entityObjects)`collidingEntities
      ensures entityObjects == Sweep(old(entityObjects), old(Flags(entityObjects)))
      ensures Distinct(old(entityObjects)) ==>
        forall k :: 0 <= k < |old(entityObjects)| && !old(entityObjects[k].shouldRemove) ==>
          var e := old(entityObjects[k]);
          e.GetMotion() == Fallen(Cells(tiles), camera.GetView(), gravity, e, old(e.GetMotion()), e.gravityMultiplier) &&
          e.collidingEntities == []
    {
      ghost var g, v := Cells(tiles), camera.GetView();
      ghost var flags, motions := Flags(entityObjects), Motions(entityObjects);
      ghost var targets := Targets(g, v, gravity, entityObjects, motions, Multipliers(entityObjects));
      StepEntitiesFrom(entityObjects, g, v, flags, motions, targets);
    }

    /** The loop of the entity pass over the list `es` as it was, with the
        grid, view, flags, motions and targets taken before it. */
    method StepEntitiesFrom(es: seq<Entity>, ghost g: seq<seq<Tile>>, ghost v: View,
                            ghost flags: seq<bool>, ghost motions: seq<Motion>, ghost targets: seq<Motion>)
      requires IsGrid(tiles) && g == Cells(tiles) && v == camera.GetView()
      requires es == entityObjects && flags == Flags(es) && motions == Motions(es)
      requires targets == Targets(g, v, gravity, es, motions, Multipliers(es))
      modifies this`entityObjects
      modifies (set e | e in es)`x, (set e | e in es)`y, (set e | e in es)`vx, (set e | e in es)`vy
      modifies (set e | e in es)`collidingEntities
      ensures entityObjects == Sweep(es, flags)
      ensures Distinct(es) ==> forall k :: 0 <= k < |es| && !flags[k] ==>
        es[k].GetMotion() == targets[k] && es[k].collidingEntities == []
    {
      var i := 0;
      while i < |es|
        invariant 0 <= i <= |es|
        invariant g == Cells(tiles) && v == camera.GetView()
        invariant entityObjects == Sweep(es, flags[..i])
        invariant Distinct(es) ==> forall k :: 0 <= k < i && !flags[k] ==>
          es[k].GetMotion() == targets[k] && es[k].collidingEntities == []
        invariant Distinct(es) ==> forall k :: i <= k < |es| ==> es[k].GetMotion() == motions[k]
      {
        StepEntitiesPass(es, i, g, v, flags, motions, targets);
        i := i + 1;
      }
      assert flags[..i] == flags;
    }

    /** One pass of the entity loop, at position `i` of the list `es` as it
        was: the flagged entity is removed at `i`, any other is stepped. */
    method StepEntitiesPass(es: seq<Entity>, i: nat, ghost g: seq<seq<Tile>>, ghost v: View,
                            ghost flags: seq<bool>, ghost motions: seq<Motion>, ghost targets: seq<Motion>)
      requires IsGrid(tiles) && g == Cells(tiles) && v == camera.GetView()
      requires i < |es| == |flags| == |motions| == |targets| && flags[i] == es[i].shouldRemove
      requires targets[i] == Fallen(g, v, gravity, es[i], motions[i], es[i].gravityMultiplier)
      requires entityObjects == Sweep(es, flags[..i])
      requires Distinct(es) ==> forall k :: 0 <= k < i && !flags[k] ==>
        es[k].GetMotion() == targets[k] && es[k].collidingEntities == []
      requires Distinct(es) ==> forall k :: i <= k < |es| ==> es[k].GetMotion() == motions[k]
      modifies this`entityObjects, {es[i]}`x, {es[i]}`y, {es[i]}`vx, {es[i]}`vy, {es[i]}`collidingEntities
      ensures entityObjects == Sweep(es, flags[..i + 1])
      ensures Distinct(es) ==> forall k :: 0 <= k < i + 1 && !flags[k] ==>
        es[k].GetMotion() == targets[k] && es[k].collidingEntities == []
      ensures Distinct(es) ==> forall k :: i + 1 <= k < |es| ==> es[k].GetMotion() == motions[k]
    {
      var entity := es[i];
      SweepSnoc(es, flags, i);
      if entity.shouldRemove {
        entityObjects := Removed(entityObjects, i);
      } else {
        ghost var m := entity.GetMotion();
        StepEntity(entity, g, v);
        assert Distinct(es) ==> m == motions[i] && entity.GetMotion() == targets[i];
      }
    }

    /** One kept entity of the entity pass: gravity times its multiplier
        is added to its vertical speed, it takes its physics step against
        the grid `g` and view `v`, and it forgets its collisions. */
    method StepEntity(e: Entity, ghost g: seq<seq<Tile>>, ghost v: View)
      requires IsGrid(tiles) && g == Cells(tiles) && v == camera.GetView()
      modifies e`x, e`y, e`vx, e`vy, e`collidingEntities
      ensures e.GetMotion() == Fallen(g, v, gravity, e, old(e.GetMotion()), e.gravityMultiplier)
      ensures e.collidingEntities == []
    {
      ghost var m, mult := e.GetMotion(), e.gravityMultiplier;
      e.AddVel(0.0, gravity * e.gravityMultiplier);
      ghost var fallen := e.GetMotion();
      assert fallen == m.(vy := m.vy + gravity * mult);
      e.Update(tiles, camera);
      ghost var stepped := e.GetMotion();
      assert stepped == Step(g, v, fallen, e.width, e.height, e.stayWithinCamera);
      e.collidingEntities := [];
      assert e.GetMotion() == stepped && e.gravityMultiplier == mult;
      assert stepped == Fallen(g, v, gravity, e, m, mult);
    }

    /** The pair scan: for every ordered pair of different positions of
        the entity list whose boxes the corner test relates, each of the
        two entities gains the other in its collision list. Afterwards an
        entity of the list has in its list what it had and exactly its
        partners. */
    method FindCollisions()
      modifies (set e | e in entityObjects)`collidingEntities
      ensures forall e, o :: e in entityObjects ==>
        (o in e.collidingEntities <==> o in old(e.collidingEntities) || Partners(entityObjects, EntityBoxes(entityObjects), e, o))
    {
      var es := entityObjects;
      ghost var boxes := EntityBoxes(es);
      ghost var lists := CollisionLists(es);
      var i := 0;
      while i < |es|
        invariant 0 <= i <= |es|
        invariant forall a :: 0 <= a < |es| ==> es[a].GetBox() == boxes[a]
        invariant forall a, o :: 0 <= a < |es| ==>
          (o in es[a].collidingEntities <==> o in lists[a] || Found(es, boxes, es[a], o, i, 0))
      {
        LinkRow(es, boxes, lists, i);
        i := i + 1;
      }
      assert EntityBoxes(es) == boxes;
      forall e, o | e in es
        ensures o in e.collidingEntities <==> o in old(e.collidingEntities) || Partners(es, boxes, e, o)
      {
        var a :| 0 <= a < |es| && es[a] == e;
      }
    }

    /** The scan's row `i`: entity `i` against every position. */
    method LinkRow(es: seq<Entity>, ghost boxes: seq<Box>, ghost lists: seq<seq<Entity>>, i: nat)
      requires i < |es| == |boxes| == |lists|
      requires forall a :: 0 <= a < |es| ==> es[a].GetBox() == boxes[a]
      requires forall a, o :: 0 <= a < |es| ==>
        (o in es[a].collidingEntities <==> o in lists[a] || Found(es, boxes, es[a], o, i, 0))
      modifies (set e | e in es)`collidingEntities
      ensures forall a :: 0 <= a < |es| ==> es[a].GetBox() == boxes[a]
      ensures forall a, o :: 0 <= a < |es| ==>
        (o in es[a].collidingEntities <==> o in lists[a] || Found(es, boxes, es[a], o, i + 1, 0))
    {
      var j := 0;
      while j < |es|
        invariant 0 <= j <= |es|
        invariant forall a :: 0 <= a < |es| ==> es[a].GetBox() == boxes[a]
        invariant forall a, o :: 0 <= a < |es| ==>
          (o in es[a].collidingEntities <==> o in lists[a] || Found(es, boxes, es[a], o, i, j))
      {
        LinkPair(es, boxes, lists, i, j);
        j := j + 1;
      }
      FoundNextRow(es, boxes, i);
    }

    /** The scan at the pair (i, j): unless the positions are equal, when
        the corner test relates their boxes each entity gains the other. */
    method LinkPair(es: seq<Entity>, ghost boxes: seq<Box>, ghost lists: seq<seq<Entity>>, i: nat, j: nat)
      requires i < |es| == |boxes| == |lists| && j < |es|
      requires forall a :: 0 <= a < |es| ==> es[a].GetBox() == boxes[a]
      requires forall a, o :: 0 <= a < |es| ==>
        (o in es[a].collidingEntities <==> o in lists[a] || Found(es, boxes, es[a], o, i, j))
      modifies {es[i], es[j]}`collidingEntities
      ensures forall a, o :: 0 <= a < |es| ==>
        (o in es[a].collidingEntities <==> o in lists[a] || Found(es, boxes, es[a], o, i, j + 1))
    {
      FoundStep(es, boxes, i, j);
      if i == j {
        return;
      }
      var ei, ej := es[i], es[j];
      if Overlaps(ei.GetBox(), ej.GetBox()) {
        ei.collidingEntities := ei.collidingEntities + [ej];
        ej.collidingEntities := ej.collidingEntities + [ei];
      }
    }
  }
}
