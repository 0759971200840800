// The GPU profiler: a fixed table of named profiles. A profile brackets a
// stretch of a command list with two timestamp queries; the timestamps
// are resolved into a read-back buffer holding one block of queries per
// frame in flight, and at the end of a frame one sample per used profile
// is stored in that profile's ring of samples.
module Profiling {
  import opened Gpu

  /** Samples kept per profile (a ring). */
  const NumTimeSamples: nat := 64

  /** Bytes per timestamp (a 64-bit counter value). */
  const TimestampByteSize: nat := 8

  /** A sample: the two raw timestamps. Their conversion to milliseconds is
      floating point and not part of this model. */
  datatype TimeSample = TimeSample(startTime: nat, endTime: nat)

  const ZeroSample: TimeSample := TimeSample(0, 0)

  datatype ProfileData = ProfileData(name: string, timeSamples: seq<TimeSample>, currentSampleIndex: nat)

  /** A slot as the table is created: no name, all samples zero. */
  function EmptyProfile(): (d: ProfileData)
    ensures WellFormedProfile(d) && d.currentSampleIndex == 0
    ensures forall k :: 0 <= k < NumTimeSamples ==> d.timeSamples[k] == ZeroSample
  {
    ProfileData("", seq(NumTimeSamples, _ => ZeroSample), 0)
  }

  predicate WellFormedProfile(d: ProfileData)
  {
    |d.timeSamples| == NumTimeSamples && d.currentSampleIndex < NumTimeSamples
  }

  /** Storing one sample: it goes at the current index, which then advances
      around the ring. */
  function AddSample(d: ProfileData, s: TimeSample): (e: ProfileData)
    requires WellFormedProfile(d)
    ensures WellFormedProfile(e) && e.name == d.name
    ensures e.timeSamples[d.currentSampleIndex] == s
    ensures forall k :: 0 <= k < NumTimeSamples && k != d.currentSampleIndex ==> e.timeSamples[k] == d.timeSamples[k]
    ensures e.currentSampleIndex == if d.currentSampleIndex == NumTimeSamples - 1 then 0 else d.currentSampleIndex + 1
  {
    d.(timeSamples := d.timeSamples[d.currentSampleIndex := s],
       currentSampleIndex := (d.currentSampleIndex + 1) % NumTimeSamples)
  }

  function Names(profiles: seq<ProfileData>, n: nat): (names: seq<string>)
    requires n <= |profiles|
    ensures |names| == n
    ensures forall i :: 0 <= i < n ==> names[i] == profiles[i].name
  {
    seq(n, i requires 0 <= i < n => profiles[i].name)
  }

  predicate Distinct(names: seq<string>)
  {
    forall i, j :: 0 <= i < j < |names| ==> names[i] != names[j]
  }

  /** The position of the first occurrence of `name`, or |names| when absent. */
  function IndexOf(names: seq<string>, name: string): (k: nat)
    ensures k <= |names|
    ensures k < |names| <==> name in names
    ensures k < |names| ==> names[k] == name
    ensures forall j :: 0 <= j < k ==> names[j] != name
    decreases |names|
  {
    if names == [] then 0
    else if names[0] == name then 0
    else 1 + IndexOf(names[1..], name)
  }

  /** In a duplicate-free list, a name's first occurrence is its only one. */
  lemma {:induction false} IndexOfDistinct(names: seq<string>, k: nat)
    requires Distinct(names) && k < |names|
    ensures IndexOf(names, names[k]) == k
    decreases k
  {
    if k > 0 {
      assert names[0] != names[k];
      var rest := names[1..];
      assert rest[k - 1] == names[k];
      assert Distinct(rest) by {
        forall i, j | 0 <= i < j < |rest|
          ensures rest[i] != rest[j]
        {
          assert rest[i] == names[i + 1] && rest[j] == names[j + 1];
        }
      }
      IndexOfDistinct(rest, k - 1);
    }
  }

  // ---------------------------------------------------------------------
  // Query indices and byte offsets, in the source's 32-bit arithmetic
  // ---------------------------------------------------------------------

  /** The query receiving a profile's start timestamp. */
  function StartQueryIndex(profileIndex: u32): u32
  {
    MulU32(2, profileIndex)
  }

  /** The query receiving a profile's end timestamp. */
  function EndQueryIndex(profileIndex: u32): u32
  {
    AddU32(StartQueryIndex(profileIndex), 1)
  }

  /** The timestamp slot a profile's start query is resolved to in a frame's
      block, counted in timestamps. */
  function ResolveIndex(frame: u32, maxNumQueries: u32, profileIndex: u32): u32
  {
    AddU32(MulU32(frame, maxNumQueries), StartQueryIndex(profileIndex))
  }

  /** The byte offset EndProfile resolves the two queries to. */
  function ResolveByteOffset(frame: u32, maxNumQueries: u32, profileIndex: u32): nat
  {
    ResolveIndex(frame, maxNumQueries, profileIndex) * TimestampByteSize
  }

  /** The profile table's sizes fit the 32-bit counters: no query index or
      timestamp count wraps around. */
  predicate SizesFit(maxNumProfiles: u32, renderLatency: u32)
  {
    2 * maxNumProfiles * renderLatency < U32Modulus && 2 * maxNumProfiles < U32Modulus
  }

  lemma MulMonotone(a: nat, b: nat, c: nat)
    requires a <= b
    ensures a * c <= b * c
  {
  }

  /** Profile i of frame f owns queries 2i and 2i+1 and resolves them to the
      timestamp slots f·maxQueries + 2i and the one after; with f below the
      render latency and i below the table size these lie inside the
      timestamp buffer, and inside frame f's block. */
  lemma ResolveWithinBuffer(maxNumProfiles: u32, renderLatency: u32, frame: u32, profileIndex: u32)
    requires SizesFit(maxNumProfiles, renderLatency)
    requires frame < renderLatency && profileIndex < maxNumProfiles
    ensures var maxNumQueries := MulU32(2, maxNumProfiles);
      maxNumQueries == 2 * maxNumProfiles &&
      StartQueryIndex(profileIndex) == 2 * profileIndex &&
      EndQueryIndex(profileIndex) == 2 * profileIndex + 1 &&
      ResolveIndex(frame, maxNumQueries, profileIndex) == frame * maxNumQueries + 2 * profileIndex &&
      frame * maxNumQueries <= ResolveIndex(frame, maxNumQueries, profileIndex) &&
      ResolveIndex(frame, maxNumQueries, profileIndex) + 2 <= (frame + 1) * maxNumQueries &&
      ResolveByteOffset(frame, maxNumQueries, profileIndex) + 2 * TimestampByteSize
        <= MulU32(maxNumQueries, renderLatency) * TimestampByteSize
  {
    var q := 2 * (maxNumProfiles as nat);
    MulMonotone(frame as nat + 1, renderLatency as nat, q);
    assert (frame as nat + 1) * q == frame as nat * q + q;
    assert q * renderLatency == 2 * maxNumProfiles * renderLatency;
  }

  /** What EndFrame reads as written: the pointer the read-back buffer's Map
      returns addresses the start of the buffer, and the loop indexes it with
      2i and 2i+1, whatever the frame. */
  function AsWrittenReadIndex(profileIndex: u32): u32
  {
    StartQueryIndex(profileIndex)
  }

  /** For any frame but the first, the as-written read misses the slots the
      frame's queries were resolved to: it reads frame 0's block. */
  lemma AsWrittenReadsFrameZero(maxNumProfiles: u32, renderLatency: u32, frame: u32, profileIndex: u32)
    requires SizesFit(maxNumProfiles, renderLatency)
    requires 0 < frame < renderLatency && profileIndex < maxNumProfiles
    ensures AsWrittenReadIndex(profileIndex) != ResolveIndex(frame, MulU32(2, maxNumProfiles), profileIndex)
    ensures AsWrittenReadIndex(profileIndex) == ResolveIndex(0, MulU32(2, maxNumProfiles), profileIndex)
  {
    ResolveWithinBuffer(maxNumProfiles, renderLatency, frame, profileIndex);
    MulMonotone(1, frame as nat, MulU32(2, maxNumProfiles) as nat);
  }

  /** The intended read: the slots EndProfile resolved this frame's queries to. */
  function ReadIndex(frame: u32, maxNumQueries: u32, profileIndex: u32): u32
  {
    ResolveIndex(frame, maxNumQueries, profileIndex)
  }

  /** The intended read takes exactly the two timestamps that the same
      frame's EndProfile resolved, and both lie within the buffer. */
  lemma ReadIndexMatchesResolve(maxNumProfiles: u32, renderLatency: u32, frame: u32, profileIndex: u32)
    requires SizesFit(maxNumProfiles, renderLatency)
    requires frame < renderLatency && profileIndex < maxNumProfiles
    ensures var maxNumQueries := MulU32(2, maxNumProfiles);
      ReadIndex(frame, maxNumQueries, profileIndex) * TimestampByteSize == ResolveByteOffset(frame, maxNumQueries, profileIndex) &&
      ReadIndex(frame, maxNumQueries, profileIndex) + 1 < MulU32(maxNumQueries, renderLatency)
  {
    ResolveWithinBuffer(maxNumProfiles, renderLatency, frame, profileIndex);
  }

  /** The two timestamps at slot k and the one after it. EndFrame only
      reads inside the buffer (ReadIndexMatchesResolve), so the fallback is
      never taken there. */
  function ReadSample(timestamps: seq<nat>, k: nat): TimeSample
  {
    if k + 1 < |timestamps| then TimeSample(timestamps[k], timestamps[k + 1]) else ZeroSample
  }

  /** Profile i's slot after EndFrame: one more sample, read at its slot of
      the frame's block. */
  function SampledProfile(d: ProfileData, timestamps: seq<nat>, frame: u32, maxNumQueries: u32, i: u32): (e: ProfileData)
    requires WellFormedProfile(d)
    ensures WellFormedProfile(e) && e.name == d.name
  {
    AddSample(d, ReadSample(timestamps, ReadIndex(frame, maxNumQueries, i)))
  }

  /** The profile table after EndFrame: each of the first `n` profiles
      gained the sample read for it; the rest are untouched. */
  function SampledProfiles(profiles: seq<ProfileData>, n: nat, timestamps: seq<nat>, frame: u32, maxNumQueries: u32): (ps: seq<ProfileData>)
    requires n <= |profiles| <= U32Modulus
    requires forall i :: 0 <= i < |profiles| ==> WellFormedProfile(profiles[i])
    ensures |ps| == |profiles|
  {
    seq(|profiles|, i requires 0 <= i < |profiles| =>
      if i < n then SampledProfile(profiles[i], timestamps, frame, maxNumQueries, i) else profiles[i])
  }

  /** EndFrame stores, for every used profile, the two timestamps that the
      same frame's EndProfile resolved for it, at the ring's current index,
      and leaves every unused slot as it was. */
  lemma EndFrameStoresResolvedTimestamps(profiles: seq<ProfileData>, n: nat, timestamps: seq<nat>,
                                         maxNumProfiles: u32, renderLatency: u32, frame: u32, i: nat)
    requires SizesFit(maxNumProfiles, renderLatency) && frame < renderLatency
    requires n <= |profiles| == maxNumProfiles as nat
    requires forall j :: 0 <= j < |profiles| ==> WellFormedProfile(profiles[j])
    requires |timestamps| == MulU32(MulU32(2, maxNumProfiles), renderLatency) as nat
    requires i < n
    ensures var ps := SampledProfiles(profiles, n, timestamps, frame, MulU32(2, maxNumProfiles));
      var slot := ResolveByteOffset(frame, MulU32(2, maxNumProfiles), i) / TimestampByteSize;
      slot + 1 < |timestamps| &&
      ps[i].timeSamples[profiles[i].currentSampleIndex] == TimeSample(timestamps[slot], timestamps[slot + 1]) &&
      ps[i].name == profiles[i].name &&
      (forall j :: n <= j < |profiles| ==> ps[j] == profiles[j])
  {
    ReadIndexMatchesResolve(maxNumProfiles, renderLatency, frame, i);
  }

  class Profiler {
    const maxNumProfiles: u32
    const maxNumQueries: u32
    const renderLatency: u32
    const queryHeap: ApiObject
    const timestampBuffer: GraphicsResource
    var profiles: seq<ProfileData>
    var numUsedProfiles: u32
    var currentFrameIndex: u32

    /** The table invariant: one slot per profile the table can hold, the
      used slots first, the used names pairwise distinct, every ring of
      samples full-sized with its index in range. */
    ghost predicate Valid()
      reads this`profiles, this`numUsedProfiles
    {
      |profiles| == maxNumProfiles as nat && numUsedProfiles as nat <= |profiles| &&
      Distinct(Names(profiles, numUsedProfiles as nat)) &&
      forall i :: 0 <= i < |profiles| ==> WellFormedProfile(profiles[i])
    }

    function UsedNames(): seq<string>
      requires numUsedProfiles as nat <= |profiles|
      reads this`profiles, this`numUsedProfiles
    {
      Names(profiles, numUsedProfiles as nat)
    }

    /** The number of 64-bit timestamps in the read-back buffer: one block of
      queries per frame in flight. */
    function NumTimestamps(): u32
    {
      MulU32(maxNumQueries, renderLatency)
    }

    constructor (maxNumProfiles: u32, renderLatency: u32)
      ensures Valid() && numUsedProfiles == 0 && currentFrameIndex == 0
      ensures this.maxNumProfiles == maxNumProfiles && this.renderLatency == renderLatency
      ensures maxNumQueries == MulU32(2, maxNumProfiles)
      ensures timestampBuffer.desc == StructuredBufferDesc(NumTimestamps(), TimestampByteSize)
      ensures timestampBuffer.initialState == CopyDest
      ensures profiles == seq(maxNumProfiles, _ => EmptyProfile())
    {
      this.maxNumProfiles := maxNumProfiles;
      this.renderLatency := renderLatency;
      maxNumQueries := MulU32(2, maxNumProfiles);
      queryHeap := new ApiObject();
      timestampBuffer := new GraphicsResource("timestamps",
        StructuredBufferDesc(MulU32(MulU32(2, maxNumProfiles), renderLatency), TimestampByteSize), CopyDest);
      profiles := seq(maxNumProfiles, _ => EmptyProfile());
      numUsedProfiles := 0;
      currentFrameIndex := 0;
    }

    method StartFrame(currentFrameIndex: u32)
      modifies this`currentFrameIndex
      ensures this.currentFrameIndex == currentFrameIndex
    {
      this.currentFrameIndex := currentFrameIndex;
    }

    /** Finds the profile with this name, or claims the next free slot for
      it, and issues the start timestamp query. */
    method StartProfile(commandList: CommandList, name: string) returns (profileIndex: u32)
      requires Valid()
      requires name in UsedNames() || numUsedProfiles < maxNumProfiles
      modifies this`profiles, this`numUsedProfiles, commandList
      ensures Valid()
      ensures profileIndex as nat == IndexOf(old(UsedNames()), name)
      ensures profileIndex < numUsedProfiles && profiles[profileIndex].name == name
      ensures name in old(UsedNames()) ==> profiles == old(profiles) && numUsedProfiles == old(numUsedProfiles)
      ensures name !in old(UsedNames()) ==>
        numUsedProfiles == old(numUsedProfiles) + 1 &&
        profiles == old(profiles)[profileIndex := old(profiles)[profileIndex].(name := name)]
      ensures commandList.log == old(commandList.log) + [EndQuery(queryHeap, StartQueryIndex(profileIndex))]
    {
      ghost var names := UsedNames();
      profileIndex := 0;
      while profileIndex < numUsedProfiles
        invariant profileIndex <= numUsedProfiles
        invariant forall j :: 0 <= j < profileIndex ==> names[j] != name
      {
        if profiles[profileIndex].name == name {
          break;
        }
        profileIndex := profileIndex + 1;
      }
      if profileIndex == numUsedProfiles {
        profileIndex := numUsedProfiles;
        numUsedProfiles := numUsedProfiles + 1;
        profiles := profiles[profileIndex := profiles[profileIndex].(name := name)];
        assert Names(profiles, numUsedProfiles as nat) == names + [name];
      }
      commandList.Emit(EndQuery(queryHeap, StartQueryIndex(profileIndex)));
    }

    /** The end query and the resolution of both queries into the current
      frame's block of the read-back buffer. */
    function EndProfileCommands(profileIndex: u32): seq<Command>
      reads this`currentFrameIndex
    {
      [EndQuery(queryHeap, EndQueryIndex(profileIndex)),
       ResolveQueryData(queryHeap, StartQueryIndex(profileIndex), 2, timestampBuffer,
         ResolveByteOffset(currentFrameIndex, maxNumQueries, profileIndex))]
    }

    method EndProfile(commandList: CommandList, profileIndex: u32)
      requires profileIndex as nat < |profiles|
      modifies commandList
      ensures commandList.log == old(commandList.log) + EndProfileCommands(profileIndex)
    {
      var startQueryIndex := StartQueryIndex(profileIndex);
      var endQueryIndex := AddU32(startQueryIndex, 1);
      commandList.Emit(EndQuery(queryHeap, endQueryIndex));
      var destOffset := AddU32(MulU32(currentFrameIndex, maxNumQueries), startQueryIndex) * TimestampByteSize;
      commandList.Emit(ResolveQueryData(queryHeap, startQueryIndex, 2, timestampBuffer, destOffset));
    }

    /** Reads the current frame's block of the read-back buffer
      (`timestamps` is its content) and stores one sample per used profile.
      This is the corrected read; see AsWrittenReadIndex. */
    method EndFrame(timestamps: seq<nat>)
      requires Valid() && SizesFit(maxNumProfiles, renderLatency)
      requires maxNumQueries == MulU32(2, maxNumProfiles)
      requires currentFrameIndex < renderLatency && |timestamps| == NumTimestamps() as nat
      modifies this`profiles
      ensures Valid()
      ensures profiles == SampledProfiles(old(profiles), numUsedProfiles as nat, timestamps, currentFrameIndex, maxNumQueries)
    {
      ghost var profiles0 := profiles;
      var profileIndex: u32 := 0;
      while profileIndex < numUsedProfiles
        invariant profileIndex <= numUsedProfiles && |profiles| == |profiles0|
        invariant forall i :: 0 <= i < |profiles| ==>
          profiles[i] == if i < profileIndex as nat
            then SampledProfile(profiles0[i], timestamps, currentFrameIndex, maxNumQueries, i)
            else profiles0[i]
      {
        ReadIndexMatchesResolve(maxNumProfiles, renderLatency, currentFrameIndex, profileIndex);
        var k := ReadIndex(currentFrameIndex, maxNumQueries, profileIndex);
        var startTime := timestamps[k];
        var endTime := timestamps[k + 1];
        profiles := profiles[profileIndex := AddSample(profiles[profileIndex], TimeSample(startTime, endTime))];
        profileIndex := profileIndex + 1;
      }
      assert profiles == SampledProfiles(profiles0, numUsedProfiles as nat, timestamps, currentFrameIndex, maxNumQueries);
      assert Names(profiles, numUsedProfiles as nat) == Names(profiles0, numUsedProfiles as nat);
    }
  }
}
