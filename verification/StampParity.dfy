/** Binding parity on the records themselves: what the two bindings leave in
    the log differs in nothing but `extensions.mcp.binding_version`, and the
    content guard cannot tell their stamps apart. */
module StampParity {
  import opened JsonTrees
  import opened Receipts
  import opened Protocol
  import opened Parity
  import opened ReceiptStore

  // strip_binding_stamp (dagr_mcp_sdk_binding/mask.py)
  function StripBindingStamp(members: map<Key, Json>): map<Key, Json>
  {
    var extensions := Get(members, Known(Extensions));
    if !extensions.Obj? then members
    else
      var mcp := Get(extensions.members, Known(Mcp));
      if !mcp.Obj? then members
      else
        var unstamped := Obj(mcp.members - {Known(BindingVersion)});
        members[Known(Extensions) := Obj(extensions.members[Known(Mcp) := unstamped])]
  }

  /** Stripping touches nothing but the stamp: every other member of the record, of
      its extensions and of their MCP part stays, and without such a part the
      record is left alone. */
  lemma StripTouchesOnlyTheStamp(members: map<Key, Json>, k: Key)
    ensures var stripped := StripBindingStamp(members);
            && (k in stripped <==> k in members)
            && (k != Known(Extensions) ==> Get(stripped, k) == Get(members, k))
            && var extensions := Get(members, Known(Extensions));
               if !(extensions.Obj? && Get(extensions.members, Known(Mcp)).Obj?) then stripped == members
               else
                 && Get(stripped, Known(Extensions)).Obj?
                 && var inner := Get(stripped, Known(Extensions)).members;
                    && (k in inner <==> k in extensions.members)
                    && (k != Known(Mcp) ==> Get(inner, k) == Get(extensions.members, k))
                    && Get(inner, Known(Mcp)).Obj?
                    && var mcp, was := Get(inner, Known(Mcp)).members, Get(extensions.members, Known(Mcp)).members;
                       && (k in mcp <==> k in was && k != Known(BindingVersion))
                       && (k in mcp ==> mcp[k] == was[k])
  {}

  // Two envelopes that agree once unstamped render alike everywhere else.
  lemma UnstampedMember(e: Envelope, other: Envelope, f: Field)
    requires Unstamped(e) == Unstamped(other) && f != Extensions
    ensures MemberOf(e, f) == MemberOf(other, f)
  {
    assert e.body == other.body && e.limits == other.limits;
  }

  lemma McpReads(e: Envelope, k: Key)
    ensures k in McpExtension(e) <==> k.Known? && McpMember(e, k.field).Some?
    ensures k in McpExtension(e) ==> McpExtension(e)[k] == McpMember(e, k.field).value
  {}

  lemma UnstampedExtension(e: Envelope, other: Envelope)
    requires Unstamped(e) == Unstamped(other)
    ensures McpExtension(e) - {Known(BindingVersion)} == McpExtension(other) - {Known(BindingVersion)}
  {
    assert e.exceptionClass == other.exceptionClass;
    forall k | k != Known(BindingVersion)
      ensures (k in McpExtension(e) <==> k in McpExtension(other))
        && (k in McpExtension(e) ==> McpExtension(e)[k] == McpExtension(other)[k])
    {
      McpReads(e, k);
      McpReads(other, k);
    }
  }

  lemma StripOf(members: map<Key, Json>, mcp: map<Key, Json>)
    requires Get(members, Known(Extensions)) == Obj(map[Known(Mcp) := Obj(mcp)])
    ensures StripBindingStamp(members) ==
            members[Known(Extensions) := Obj(map[Known(Mcp) := Obj(mcp - {Known(BindingVersion)})])]
  {
    var stripped := Obj(mcp - {Known(BindingVersion)});
    assert map[Known(Mcp) := Obj(mcp)][Known(Mcp) := stripped] == map[Known(Mcp) := stripped];
  }

  lemma RenderedExtension(e: Envelope)
    ensures Get(Render(e), Known(Extensions)) == Obj(map[Known(Mcp) := Obj(McpExtension(e))])
  {
    RenderedMember(e, Extensions);
  }

  lemma StrippedAlike(e: Envelope, other: Envelope)
    requires Unstamped(e) == Unstamped(other)
    ensures StripBindingStamp(Render(e)) == StripBindingStamp(Render(other))
  {
    RenderedExtension(e);
    RenderedExtension(other);
    StripOf(Render(e), McpExtension(e));
    StripOf(Render(other), McpExtension(other));
    UnstampedExtension(e, other);
    RendersAgree(e, other, Obj(map[Known(Mcp) := Obj(McpExtension(e) - {Known(BindingVersion)})]));
  }

  lemma RendersAgree(e: Envelope, other: Envelope, v: Json)
    requires Unstamped(e) == Unstamped(other)
    ensures Render(e)[Known(Extensions) := v] == Render(other)[Known(Extensions) := v]
  {
    forall k | k != Known(Extensions) ensures (k in Render(e) <==> k in Render(other))
      && (k in Render(e) ==> Render(e)[k] == Render(other)[k])
    {
      RenderedFieldsOnly(e, k);
      RenderedFieldsOnly(other, k);
      if k.Known? {
        UnstampedMember(e, other, k.field);
        RenderedMember(e, k.field);
        RenderedMember(other, k.field);
      }
    }
  }

  // ---- The guard -----------------------------------------------------------

  lemma FastStampUnmarked()
    ensures !Marked(VersionText(FastMcpVersion))
  {
    Unmarked(VersionText(FastMcpVersion));
  }

  lemma SdkStampUnmarked()
    ensures !Marked(VersionText(OfficialSdkV01))
  {
    Unmarked(VersionText(OfficialSdkV01));
  }

  lemma NestedGuard(mcp: map<Key, Json>)
    ensures RawContentFree(Obj(map[Known(Mcp) := Obj(mcp)])) <==> RawContentFree(Obj(mcp))
  {
    var outer := map[Known(Mcp) := Obj(mcp)];
    assert outer[Known(Mcp)] == Obj(mcp);
    assert forall k | k in outer :: k == Known(Mcp);
  }

  lemma McpGuard(e: Envelope)
    requires !Marked(VersionText(e.bindingVersion))
    ensures RawContentFree(Obj(McpExtension(e))) <==> (e.exceptionClass.Some? ==> !Marked(e.exceptionClass.value))
  {
    McpReads(e, Known(ExceptionClass));
    forall k | k in McpExtension(e)
      ensures !RawKey(k) && RawContentFree(McpExtension(e)[k])
      ensures MarkedText(McpExtension(e)[k]) <==>
              k == Known(ExceptionClass) && e.exceptionClass.Some? && Marked(e.exceptionClass.value)
    {
      McpReads(e, k);
    }
  }

  // What the guard makes of the extension: nothing but the exception class counts.
  lemma GuardOfExtension(e: Envelope)
    requires !Marked(VersionText(e.bindingVersion))
    ensures RawContentFree(Obj(map[Known(Mcp) := Obj(McpExtension(e))])) <==>
            (e.exceptionClass.Some? ==> !Marked(e.exceptionClass.value))
  {
    NestedGuard(McpExtension(e));
    McpGuard(e);
  }

  // The guard of an envelope, member by member.
  lemma GuardOfRender(e: Envelope)
    ensures RawContentFree(Obj(Render(e))) <==>
            forall f: Field | MemberOf(e, f).Some? :: MemberAllowed(e, f)
  {
    if RawContentFree(Obj(Render(e))) {
      forall f: Field | MemberOf(e, f).Some? ensures MemberAllowed(e, f) { RenderedMember(e, f); }
    }
    if forall f: Field | MemberOf(e, f).Some? :: MemberAllowed(e, f) {
      forall k | k in Render(e) ensures !RawKey(k) && !MarkedText(Render(e)[k]) && RawContentFree(Render(e)[k]) {
        RenderedFieldsOnly(e, k);
        RenderedMember(e, k.field);
        assert MemberAllowed(e, k.field);
      }
    }
  }

  predicate MemberAllowed(e: Envelope, f: Field)
    requires MemberOf(e, f).Some?
  {
    !MarkedText(MemberOf(e, f).value) && RawContentFree(MemberOf(e, f).value)
  }

  lemma AllowedAlike(e: Envelope, other: Envelope, f: Field)
    requires Unstamped(e) == Unstamped(other)
    requires !Marked(VersionText(e.bindingVersion)) && !Marked(VersionText(other.bindingVersion))
    ensures MemberOf(e, f).Some? <==> MemberOf(other, f).Some?
    ensures MemberOf(e, f).Some? ==> MemberAllowed(e, f) == MemberAllowed(other, f)
  {
    if f == Extensions {
      ExtensionAllowed(e);
      ExtensionAllowed(other);
      assert e.exceptionClass == other.exceptionClass;
    } else {
      UnstampedMember(e, other, f);
    }
  }

  lemma ExtensionAllowed(e: Envelope)
    requires !Marked(VersionText(e.bindingVersion))
    ensures MemberOf(e, Extensions).Some?
    ensures MemberAllowed(e, Extensions) <==> (e.exceptionClass.Some? ==> !Marked(e.exceptionClass.value))
  {
    GuardOfExtension(e);
  }

  lemma GuardAlike(e: Envelope, other: Envelope)
    requires Unstamped(e) == Unstamped(other)
    requires !Marked(VersionText(e.bindingVersion)) && !Marked(VersionText(other.bindingVersion))
    ensures RawContentFree(Obj(Render(e))) == RawContentFree(Obj(Render(other)))
  {
    GuardOfRender(e);
    GuardOfRender(other);
    forall f: Field
      ensures (MemberOf(e, f).Some? ==> MemberAllowed(e, f)) == (MemberOf(other, f).Some? ==> MemberAllowed(other, f))
    {
      AllowedAlike(e, other, f);
    }
  }

  /** The emitter's guard refuses a receipt of one binding exactly when it
      refuses the same receipt of the other. */
  lemma GuardIsStampBlind(identity: SigningIdentity, e: Envelope)
    ensures GuardRejects(identity, e.(bindingVersion := FastMcpVersion)) ==
            GuardRejects(identity, e.(bindingVersion := OfficialSdkV01))
  {
    var fast, sdk := e.(bindingVersion := FastMcpVersion), e.(bindingVersion := OfficialSdkV01);
    FastStampUnmarked();
    SdkStampUnmarked();
    assert Unstamped(fast) == Unstamped(sdk);
    GuardAlike(fast, sdk);
    GuardIsExact(identity, fast);
    GuardIsExact(identity, sdk);
  }

  lemma GuardsAreBlind(identity: SigningIdentity, env: Env)
    requires GuardsContent(identity, env)
    ensures GuardBlind(env)
  {
    forall e: Envelope ensures env.rejects(e.(bindingVersion := FastMcpVersion)) ==
        env.rejects(e.(bindingVersion := OfficialSdkV01)) {
      GuardIsStampBlind(identity, e);
    }
  }

  /** Binding parity on the records: with the emitter's own content guard, over
      every interleaving and write failure, equal calls leave equal telemetry and
      replies, and logs of equal length whose records are equal after
      strip_binding_stamp. */
  lemma RecordParity(identity: SigningIdentity, env: Env, jobs: seq<Job>, schedule: seq<nat>)
    requires GuardsContent(identity, env) && AnswersBlind(env)
    requires forall i | 0 <= i < |jobs| :: jobs[i].setup.FastMcp? && Comparable(jobs[i])
    ensures var fast, sdk := Exec(env, jobs, schedule), Exec(env, Twins(jobs), schedule);
            && fast.phases == sdk.phases && fast.state.telemetry == sdk.state.telemetry
            && |fast.state.world.log| == |sdk.state.world.log|
            && forall k | 0 <= k < |fast.state.world.log| ::
                 StripBindingStamp(Render(fast.state.world.log[k])) == StripBindingStamp(Render(sdk.state.world.log[k]))
  {
    GuardsAreBlind(identity, env);
    BindingParity(env, jobs, schedule);
    var fast, sdk := Exec(env, jobs, schedule).state.world.log, Exec(env, Twins(jobs), schedule).state.world.log;
    forall k | 0 <= k < |fast| ensures StripBindingStamp(Render(fast[k])) == StripBindingStamp(Render(sdk[k])) {
      StrippedAlike(fast[k], sdk[k]);
    }
  }
}
