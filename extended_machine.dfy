/**
 * The workspace machine configuration value object: a machine's agents (a
 * list of names), attributes (a string map) and servers (a map to server
 * configurations), plus a persistence id that plays no part in equality.
 *
 * Collections are objects (JavaList, JavaMap), so the model tells apart the
 * constructors, which copy what they are given into fresh collections, from
 * the setters, which keep the caller's collection itself.
 */
module WorkspaceMachine {
  import opened Wrappers
  import opened JavaUtil

  /**
   * A server configuration. ServerConf2Impl is not part of this model: this
   * record stands in for it, and only its equality and its copy are used.
   */
  datatype ServerConf = ServerConf(port: string, protocol: string, properties: map<string, string>)

  /** new ServerConf2Impl(s): a copy equal to the original. */
  function CopyServerConf(s: ServerConf): (r: ServerConf)
    ensures r == s
  {
    ServerConf(s.port, s.protocol, s.properties)
  }

  /** The servers map the constructor collects: the same keys, each value replaced by its copy. */
  function CopyServers(m: map<string, ServerConf>): (r: map<string, ServerConf>)
    ensures r.Keys == m.Keys
    ensures forall k :: k in r ==> r[k] == CopyServerConf(m[k])
  {
    map k | k in m :: CopyServerConf(m[k])
  }

  /** Copying every server configuration leaves a map equal to the original. */
  lemma CopyServersEqual(m: map<string, ServerConf>)
    ensures CopyServers(m) == m
  {
    assert forall k :: k in m ==> CopyServers(m)[k] == m[k];
  }

  /** The three fields that make up a machine's identity as a value; null is None. */
  datatype MachineValue = MachineValue(
    agents: Option<seq<string>>,
    servers: Option<map<string, ServerConf>>,
    attributes: Option<map<string, string>>)

  /**
   * The hashCode of each kind of collection, as the collection classes
   * define it. Its numeric value is not part of this model, so hashing is
   * stated for every choice of these functions.
   */
  datatype ElementHashes = ElementHashes(
    agents: seq<string> -> int,
    servers: map<string, ServerConf> -> int,
    attributes: map<string, string> -> int)

  /** Objects.hash(agents, servers, attributes) for a machine holding v. */
  function HashOf(v: MachineValue, h: ElementHashes): (r: int)
    ensures IsInt32(r)
  {
    ObjectsHash([
      if v.agents.None? then None else Some(h.agents(v.agents.value)),
      if v.servers.None? then None else Some(h.servers(v.servers.value)),
      if v.attributes.None? then None else Some(h.attributes(v.attributes.value))])
  }

  /**
   * The copying both non-default constructors share: each non-null
   * collection becomes a fresh one with the same contents (servers copied
   * value by value through new ServerConf2Impl), each null stays null.
   */
  method CopyCollections(agents: JavaList?, servers: JavaMap?<ServerConf>, attributes: JavaMap?<string>)
    returns (a: JavaList?, s: JavaMap?<ServerConf>, t: JavaMap?<string>)
    ensures a == null <==> agents == null
    ensures s == null <==> servers == null
    ensures t == null <==> attributes == null
    ensures agents != null ==> fresh(a) && a.elems == agents.elems
    ensures servers != null ==> fresh(s) && s.entries == CopyServers(servers.entries)
    ensures attributes != null ==> fresh(t) && t.entries == attributes.entries
    ensures ListValue(a) == ListValue(agents)
    ensures MapValue(s) == MapValue(servers)
    ensures MapValue(t) == MapValue(attributes)
  {
    a, s, t := null, null, null;
    if agents != null {
      a := new JavaList(agents.elems);
    }
    if servers != null {
      s := new JavaMap(CopyServers(servers.entries));
      CopyServersEqual(servers.entries);
    }
    if attributes != null {
      t := new JavaMap(attributes.entries);
    }
  }

  class ExtendedMachine {
    /** The persistence id; generated by the store, null until then. */
    var id: Option<int>
    var agents: JavaList?
    var attributes: JavaMap?<string>
    var servers: JavaMap?<ServerConf>

    /** The machine's contents, read through its three collection references. */
    function View(): (v: MachineValue)
      reads this, agents, servers, attributes
      ensures v.agents.None? <==> agents == null
      ensures v.servers.None? <==> servers == null
      ensures v.attributes.None? <==> attributes == null
    {
      MachineValue(ListValue(agents), MapValue(servers), MapValue(attributes))
    }

    /** The no-argument constructor: every field left null. */
    constructor Empty()
      ensures id.None? && agents == null && servers == null && attributes == null
      ensures View() == MachineValue(None, None, None)
    {
      id := None;
      agents := null;
      servers := null;
      attributes := null;
    }

    /**
     * Builds a machine from the given collections. A null argument leaves its
     * field null; otherwise the field is a fresh collection with the same
     * contents (for servers, each value copied), so later changes to the
     * caller's collections do not reach the new machine.
     */
    constructor (agents: JavaList?, servers: JavaMap?<ServerConf>, attributes: JavaMap?<string>)
      ensures id.None?
      ensures this.agents == null <==> agents == null
      ensures this.servers == null <==> servers == null
      ensures this.attributes == null <==> attributes == null
      ensures agents != null ==> fresh(this.agents) && this.agents.elems == agents.elems
      ensures servers != null ==> fresh(this.servers)
      ensures servers != null ==> this.servers.entries == CopyServers(servers.entries)
      ensures attributes != null ==> fresh(this.attributes) && this.attributes.entries == attributes.entries
      ensures View() == MachineValue(ListValue(agents), MapValue(servers), MapValue(attributes))
    {
      id := None;
      var a, s, t := CopyCollections(agents, servers, attributes);
      this.agents, this.servers, this.attributes := a, s, t;
    }

    /**
     * The copy constructor: the three-argument constructor applied to m's
     * getters. The result equals m but shares none of its collections.
     */
    constructor FromMachine(m: ExtendedMachine)
      ensures id.None?
      ensures View() == m.View()
      ensures agents != null ==> fresh(agents)
      ensures servers != null ==> fresh(servers)
      ensures attributes != null ==> fresh(attributes)
    {
      id := None;
      var a, s, t := CopyCollections(m.GetAgents(), m.GetServers(), m.GetAttributes());
      agents, servers, attributes := a, s, t;
    }

    function GetAgents(): (r: JavaList?)
      reads this
      ensures r == agents
    {
      agents
    }

    function GetServers(): (r: JavaMap?<ServerConf>)
      reads this
      ensures r == servers
    {
      servers
    }

    function GetAttributes(): (r: JavaMap?<string>)
      reads this
      ensures r == attributes
    {
      attributes
    }

    /** Keeps the caller's list itself (no copy); the other fields stay as they were. */
    method SetAgents(agents: JavaList?)
      modifies this
      ensures GetAgents() == agents
      ensures servers == old(servers) && attributes == old(attributes) && id == old(id)
    {
      this.agents := agents;
    }

    /** Keeps the caller's map itself (no copy); the other fields stay as they were. */
    method SetServers(servers: JavaMap?<ServerConf>)
      modifies this
      ensures GetServers() == servers
      ensures agents == old(agents) && attributes == old(attributes) && id == old(id)
    {
      this.servers := servers;
    }

    /** Keeps the caller's map itself (no copy); the other fields stay as they were. */
    method SetAttributes(attributes: JavaMap?<string>)
      modifies this
      ensures GetAttributes() == attributes
      ensures agents == old(agents) && servers == old(servers) && id == old(id)
    {
      this.attributes := attributes;
    }

    /**
     * equals(o): true for this very object; false for null and for objects
     * of any other class; otherwise true exactly when agents, servers and
     * attributes are pairwise Objects.equals. The id is not compared.
     */
    predicate Equals(o: object?)
      reads this, agents, servers, attributes, o
      reads if o is ExtendedMachine then {(o as ExtendedMachine).agents} else {}
      reads if o is ExtendedMachine then {(o as ExtendedMachine).servers} else {}
      reads if o is ExtendedMachine then {(o as ExtendedMachine).attributes} else {}
      ensures o == this ==> Equals(o)
      ensures Equals(o) ==> o is ExtendedMachine
      ensures Equals(o) ==> View() == (o as ExtendedMachine).View()
    {
      this == o ||
      (o is ExtendedMachine &&
       var that := o as ExtendedMachine;
       ListsEqual(agents, that.agents) &&
       MapsEqual(servers, that.servers) &&
       MapsEqual(attributes, that.attributes))
    }

    /** hashCode(): Objects.hash(agents, servers, attributes). */
    function HashCode(h: ElementHashes): (r: int)
      reads this, agents, servers, attributes
      ensures IsInt32(r)
    {
      HashOf(View(), h)
    }
  }

  /** A machine whose three fields are all null hashes to 31 * 31 * 31, whatever the element hashes. */
  lemma AllNullHash(h: ElementHashes)
    ensures HashOf(MachineValue(None, None, None), h) == 29791
  {
    AllNullObjectsHash();
  }

  /**
   * equals holds exactly when the other object is a machine with the same
   * agents, servers and attributes; the id plays no part.
   */
  lemma EqualsIffSameValue(a: ExtendedMachine, o: object?)
    ensures a.Equals(o) <==> (o is ExtendedMachine && a.View() == (o as ExtendedMachine).View())
  {
  }

  lemma EqualsReflexive(a: ExtendedMachine)
    ensures a.Equals(a)
  {
  }

  lemma EqualsNull(a: ExtendedMachine)
    ensures !a.Equals(null)
  {
  }

  lemma EqualsSymmetric(a: ExtendedMachine, b: ExtendedMachine)
    ensures a.Equals(b) <==> b.Equals(a)
  {
    EqualsIffSameValue(a, b);
    EqualsIffSameValue(b, a);
  }

  lemma EqualsTransitive(a: ExtendedMachine, b: ExtendedMachine, c: ExtendedMachine)
    requires a.Equals(b) && b.Equals(c)
    ensures a.Equals(c)
  {
    EqualsIffSameValue(a, b);
    EqualsIffSameValue(b, c);
    EqualsIffSameValue(a, c);
  }

  /** Two machines with the same three fields are equal and hash alike, whatever their ids. */
  lemma IdIgnored(a: ExtendedMachine, b: ExtendedMachine, h: ElementHashes)
    requires a.View() == b.View()
    ensures a.Equals(b)
    ensures a.HashCode(h) == b.HashCode(h)
  {
    EqualsIffSameValue(a, b);
  }

  /** Equal machines have equal hash codes. */
  lemma EqualsImpliesSameHash(a: ExtendedMachine, b: ExtendedMachine, h: ElementHashes)
    requires a.Equals(b)
    ensures a.HashCode(h) == b.HashCode(h)
  {
    EqualsIffSameValue(a, b);
  }

  /**
   * The constructor copies: once the machine is built, adding to the
   * caller's list or putting into the caller's attribute map does not change
   * the machine.
   */
  method ConstructorIsolatesCaller(agents: JavaList, attributes: JavaMap<string>, x: string, k: string, v: string)
    returns (m: ExtendedMachine)
    modifies agents, attributes
    ensures agents.elems == old(agents.elems) + [x]
    ensures attributes.entries == old(attributes.entries)[k := v]
    ensures m.View() == MachineValue(Some(old(agents.elems)), None, Some(old(attributes.entries)))
  {
    m := new ExtendedMachine(agents, null, attributes);
    agents.Add(x);
    attributes.Put(k, v);
  }

  /**
   * The setter shares: once the caller's list is set on a machine, adding to
   * that list is seen through the machine.
   */
  method SetterSharesCallerList(m: ExtendedMachine, agents: JavaList, x: string)
    modifies m, agents
    ensures m.GetAgents() == agents
    ensures m.View().agents == Some(old(agents.elems) + [x])
  {
    m.SetAgents(agents);
    agents.Add(x);
  }

  /** A copy equals its original and shares none of its collections. */
  method CopyEqualsOriginal(m: ExtendedMachine) returns (c: ExtendedMachine)
    ensures c.Equals(m) && m.Equals(c)
    ensures c != m
    ensures c.agents == null || c.agents != m.agents
    ensures c.servers == null || c.servers != m.servers
    ensures c.attributes == null || c.attributes != m.attributes
  {
    c := new ExtendedMachine.FromMachine(m);
    EqualsIffSameValue(c, m);
    EqualsIffSameValue(m, c);
  }
}
