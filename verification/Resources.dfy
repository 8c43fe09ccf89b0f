/**
 * Merging a node's resource requirements with the common ones (newResourceRequirements in
 * pkg/k8shandler/common.go).  Memory is in bytes and CPU in millicores; a missing quantity
 * reads as zero.
 */
module Resources {
  import opened Drift

  datatype Requirements = Requirements(limits: ResourceList, requests: ResourceList)

  const DEFAULT_MEMORY_LIMIT := 4 * 1024 * 1024 * 1024
  const DEFAULT_MEMORY_REQUEST := 1024 * 1024 * 1024
  const DEFAULT_CPU_REQUEST := 100

  /** The first quantity that is set, in order of priority. */
  function FirstSet(quantities: seq<int>): (q: int)
    ensures q != 0 ==> q in quantities
    ensures q == 0 <==> forall i :: 0 <= i < |quantities| ==> quantities[i] == 0
  {
    if quantities == [] then 0
    else if quantities[0] != 0 then quantities[0]
    else FirstSet(quantities[1..])
  }

  function MemoryRequest(node: Requirements, common: Requirements): int {
    FirstSet([Quantity(node.requests, MEMORY), Quantity(common.requests, MEMORY),
              Quantity(common.limits, MEMORY), Quantity(node.limits, MEMORY), DEFAULT_MEMORY_REQUEST])
  }

  function MemoryLimit(node: Requirements, common: Requirements): int {
    FirstSet([Quantity(node.limits, MEMORY), Quantity(common.limits, MEMORY),
              Quantity(common.requests, MEMORY), Quantity(node.requests, MEMORY), DEFAULT_MEMORY_LIMIT])
  }

  function CpuRequest(node: Requirements, common: Requirements): int {
    FirstSet([Quantity(node.requests, CPU), Quantity(common.requests, CPU),
              Quantity(common.limits, CPU), Quantity(node.limits, CPU), DEFAULT_CPU_REQUEST])
  }

  /** Zero when no limit is to be set. */
  function CpuLimit(node: Requirements, common: Requirements): int {
    FirstSet([Quantity(node.limits, CPU), Quantity(common.limits, CPU)])
  }

  lemma FirstSetUnfold(quantities: seq<int>)
    requires quantities != []
    ensures FirstSet(quantities) == if quantities[0] != 0 then quantities[0] else FirstSet(quantities[1..])
  {
  }

  /** The chains written out. */
  lemma FirstOfFive(a: int, b: int, c: int, d: int, e: int)
    ensures FirstSet([a, b, c, d, e])
         == if a != 0 then a else if b != 0 then b else if c != 0 then c else if d != 0 then d else e
  {
    assert [a, b, c, d, e][1..] == [b, c, d, e];
    assert [b, c, d, e][1..] == [c, d, e];
    assert [c, d, e][1..] == [d, e];
    FirstOfTwo(d, e);
    FirstSetUnfold([b, c, d, e]);
    FirstSetUnfold([c, d, e]);
  }

  lemma FirstOfTwo(a: int, b: int)
    ensures FirstSet([a, b]) == if a != 0 then a else b
  {
    assert [a, b][1..] == [b];
    FirstSetUnfold([b]);
  }

  /** The memory half of the branch tree. */
  method MergeMemory(node: Requirements, common: Requirements) returns (request: int, limit: int)
    ensures request == MemoryRequest(node, common)
    ensures limit == MemoryLimit(node, common)
  {
    var nodeLimit, nodeRequest := Quantity(node.limits, MEMORY), Quantity(node.requests, MEMORY);
    var commonLimit, commonRequest := Quantity(common.limits, MEMORY), Quantity(common.requests, MEMORY);
    FirstOfFive(nodeRequest, commonRequest, commonLimit, nodeLimit, DEFAULT_MEMORY_REQUEST);
    FirstOfFive(nodeLimit, commonLimit, commonRequest, nodeRequest, DEFAULT_MEMORY_LIMIT);
    if commonRequest == 0 && commonLimit == 0 {
      if nodeRequest == 0 && nodeLimit == 0 {
        limit := DEFAULT_MEMORY_LIMIT;
        request := DEFAULT_MEMORY_REQUEST;
      } else if nodeRequest == 0 {
        request, limit := nodeLimit, nodeLimit;
      } else if nodeLimit == 0 {
        request, limit := nodeRequest, nodeRequest;
      } else {
        request, limit := nodeRequest, nodeLimit;
      }
    } else {
      if nodeRequest == 0 {
        if commonRequest == 0 {
          request := commonLimit;
        } else {
          request := commonRequest;
        }
      } else {
        request := nodeRequest;
      }
      if nodeLimit == 0 {
        if commonLimit == 0 {
          limit := commonRequest;
        } else {
          limit := commonLimit;
        }
      } else {
        limit := nodeLimit;
      }
    }
  }

  /** The CPU half; a limit of zero is none. */
  method MergeCpu(node: Requirements, common: Requirements) returns (request: int, limit: int)
    ensures request == CpuRequest(node, common)
    ensures limit == CpuLimit(node, common)
  {
    var nodeLimit, nodeRequest := Quantity(node.limits, CPU), Quantity(node.requests, CPU);
    var commonLimit, commonRequest := Quantity(common.limits, CPU), Quantity(common.requests, CPU);
    FirstOfFive(nodeRequest, commonRequest, commonLimit, nodeLimit, DEFAULT_CPU_REQUEST);
    FirstOfTwo(nodeLimit, commonLimit);
    limit := 0;
    if commonRequest == 0 && commonLimit == 0 {
      if nodeRequest == 0 && nodeLimit == 0 {
        request := DEFAULT_CPU_REQUEST;
      } else if nodeRequest == 0 {
        request, limit := nodeLimit, nodeLimit;
      } else if nodeLimit == 0 {
        request := nodeRequest;
      } else {
        request, limit := nodeRequest, nodeLimit;
      }
    } else {
      if nodeRequest == 0 {
        if commonRequest == 0 {
          request := commonLimit;
        } else {
          request := commonRequest;
        }
      } else {
        request := nodeRequest;
      }
      if nodeLimit == 0 {
        if commonLimit != 0 {
          limit := commonLimit;
        }
      } else {
        limit := nodeLimit;
      }
    }
  }

  /** newResourceRequirements: the branch tree is the four priority chains. */
  method NewResourceRequirements(node: Requirements, common: Requirements) returns (r: Requirements)
    ensures r.requests == map[CPU := CpuRequest(node, common), MEMORY := MemoryRequest(node, common)]
    ensures r.limits == if CpuLimit(node, common) == 0 then map[MEMORY := MemoryLimit(node, common)]
                        else map[CPU := CpuLimit(node, common), MEMORY := MemoryLimit(node, common)]
  {
    var memoryRequest, memoryLimit := MergeMemory(node, common);
    var cpuRequest, cpuLimit := MergeCpu(node, common);
    if cpuLimit == 0 {
      r := Requirements(map[MEMORY := memoryLimit], map[CPU := cpuRequest, MEMORY := memoryRequest]);
    } else {
      r := Requirements(map[CPU := cpuLimit, MEMORY := memoryLimit], map[CPU := cpuRequest, MEMORY := memoryRequest]);
    }
  }

  // ----- requests within limits -----

  predicate Set(list: ResourceList, name: string) {
    Quantity(list, name) != 0
  }

  /** Quantities are not negative, and a request that comes with a limit stays below it. */
  predicate WellFormed(r: Requirements, name: string) {
    && Quantity(r.requests, name) >= 0 && Quantity(r.limits, name) >= 0
    && (Set(r.requests, name) && Set(r.limits, name) ==> Quantity(r.requests, name) <= Quantity(r.limits, name))
  }

  /** What the common requirements ask for when they mention the resource at all. */
  function CommonLimit(common: Requirements, name: string): int {
    if Set(common.limits, name) then Quantity(common.limits, name) else Quantity(common.requests, name)
  }

  function CommonRequest(common: Requirements, name: string): int {
    if Set(common.requests, name) then Quantity(common.requests, name) else Quantity(common.limits, name)
  }

  /**
   * Merged memory requests stay within the limit exactly unless the node sets one of the two
   * and that one contradicts the common requirements.
   */
  lemma MemoryWithinLimit(node: Requirements, common: Requirements)
    requires WellFormed(node, MEMORY) && WellFormed(common, MEMORY)
    ensures MemoryRequest(node, common) <= MemoryLimit(node, common) <==>
      && (Set(node.requests, MEMORY) && !Set(node.limits, MEMORY) && CommonLimit(common, MEMORY) != 0 ==>
            Quantity(node.requests, MEMORY) <= CommonLimit(common, MEMORY))
      && (Set(node.limits, MEMORY) && !Set(node.requests, MEMORY) && CommonRequest(common, MEMORY) != 0 ==>
            CommonRequest(common, MEMORY) <= Quantity(node.limits, MEMORY))
  {
    var nl, nr := Quantity(node.limits, MEMORY), Quantity(node.requests, MEMORY);
    var cl, cr := Quantity(common.limits, MEMORY), Quantity(common.requests, MEMORY);
    FirstOfFive(nr, cr, cl, nl, DEFAULT_MEMORY_REQUEST);
    FirstOfFive(nl, cl, cr, nr, DEFAULT_MEMORY_LIMIT);
  }

  /** So a node that sets both or neither always gets a request within its limit. */
  lemma MemoryWithinLimitWhenPaired(node: Requirements, common: Requirements)
    requires WellFormed(node, MEMORY) && WellFormed(common, MEMORY)
    requires Set(node.requests, MEMORY) <==> Set(node.limits, MEMORY)
    ensures 0 < MemoryRequest(node, common) <= MemoryLimit(node, common)
  {
    MemoryWithinLimit(node, common);
    hide FirstSet;
    FirstOfFive(Quantity(node.requests, MEMORY), Quantity(common.requests, MEMORY),
                Quantity(common.limits, MEMORY), Quantity(node.limits, MEMORY), DEFAULT_MEMORY_REQUEST);
  }

  /** A node that only asks for more memory than the common limit gets a request above its limit. */
  lemma LoneRequestExceedsLimit(request: int, limit: int)
    requires 0 < limit < request
    ensures var node, common := Requirements(map[], map[MEMORY := request]), Requirements(map[MEMORY := limit], map[]);
            MemoryRequest(node, common) > MemoryLimit(node, common)
  {
    MemoryWithinLimit(Requirements(map[], map[MEMORY := request]), Requirements(map[MEMORY := limit], map[]));
  }

  /** CPU: within the limit, when there is one, exactly unless the node sets one that contradicts the common ones. */
  lemma CpuWithinLimit(node: Requirements, common: Requirements)
    requires WellFormed(node, CPU) && WellFormed(common, CPU) && CpuLimit(node, common) != 0
    ensures CpuRequest(node, common) <= CpuLimit(node, common) <==>
      && (Set(node.requests, CPU) && !Set(node.limits, CPU) ==>
            Quantity(node.requests, CPU) <= Quantity(common.limits, CPU))
      && (Set(node.limits, CPU) && !Set(node.requests, CPU) && CommonRequest(common, CPU) != 0 ==>
            CommonRequest(common, CPU) <= Quantity(node.limits, CPU))
  {
    var nl, nr := Quantity(node.limits, CPU), Quantity(node.requests, CPU);
    var cl, cr := Quantity(common.limits, CPU), Quantity(common.requests, CPU);
    FirstOfFive(nr, cr, cl, nl, DEFAULT_CPU_REQUEST);
    FirstOfTwo(nl, cl);
  }
}
