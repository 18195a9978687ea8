# LEGOSim distributed runtime: a verified model

A Dafny model of the message-passing core of the repository, with proofs of what its parts promise
together. Verify it with `dafny verify dfyconfig.toml`.

What is modelled:

- **The data-parallel MLP** (`Network`, `MlpReference`, `MlpProtocol`, `MlpSchedule`, `MlpScaling`,
  `MlpProcess`, `MlpPrograms`, `MlpTraining`). CPU ranks and GPU workers are processes over untagged FIFO channels,
  whose receives block until the head of a channel has the requested length. `Network` proves once and
  for all that such processes are confluent; `MlpSchedule` builds one complete run; together they say
  that *every* interleaving, for every power-of-two rank count and every iteration count, ends with the
  model of the sequential reference on every rank and with all channels empty, for an arbitrary
  addition. What is matched is the loop of `scripts/mlp_dp_reference.py`. That script fixes 4 features,
  6 hidden units and 8 ranks (lines 6-12), the C++ programs have 16 and 128 and read their rank count;
  the model leaves all three open: they are part of the gradient function and of the job. `MlpProcess`
  has the programs themselves, with their loops and variables; `MlpPrograms` shows that they run to their
  end on whatever they are fed with, and that in a finished run a process has done exactly what its
  program does. `MlpTraining` adds what follows with an associative,
  or an exact, addition.
- **The PipeComm transport** (`PipeFrame`, `PipeLink`, `PipeRouting`, `PipeMesh`, `PipeGateway`,
  `PipeWire`, `PipeRequest`, `PipeRouter`): frames, gateway queues and threads, rings, routers,
  topology and port assignment. Every pipe is a FIFO in every run of all workers together.
- **Processes over the transport** (`PipeNetwork`, `PipeWaiting`, `Memory`, `MlpTransport`,
  `GemmTransport`): every run of processes, routers, gateways and rings refines a run of the abstract
  network, also when readers sleep on the conditions of routers and gateways until they are woken. So MLP
  and GEMM keep their results over the real transport, with messages as bytes and the router's size limit.
- **Blocked readers** (`Wakeup`) of the broker, and of router and gateway.
- **The ns-3 Phase-2 adapter** (`Phase2`, `Phase2Runs`, `Phase2Reports`): ns-3 is an environment that
  emits transmit-end and receive events in any order, any number of times.
- **The metrics** (`Intervals`, `TransferMetrics`, `TransferConservation`, `PipeLog`): the two interval
  sweeps, clipping, the pairing of writes with reads, which is the truth of every run of the transport,
  and what is conserved in the totals of every group.
- **The block GEMM** (`GemmBlocks`, `GemmProtocol`), on the same `Network`.

Imperative code of the sources is a method or a class here, and its contract ties it to a function;
concurrent parts are state machines whose steps are single critical sections, sends or receives.

Where code and documentation differ, the model follows the code:

- `real/fifo_broker.py:69-70` says that a read waits for a payload of its own size. The code takes the
  first payload whatever its size, and a payload of another size is lost
  (`Wakeup.UnluckyReadLosesThePayload`). No run loses a payload if and only if all sizes written equal
  all sizes asked for (`Wakeup.NothingIsLostIfAllSizesAgree`).
- Router and gateway wake their readers when a payload arrives, but not when one is taken. That is
  enough exactly if there is one reader of a pipe at a time, or all its readers ask for the same size
  (`Wakeup.WhenWakeupsSuffice`).
- The router refuses more than 65000 bytes, while the GEMM sends its row block as one message. A run can
  be verified if and only if there are at least four ranks (`GemmTransport.VerifiedFromFourRanks`); the
  default point of one node has two (`scripts/generate_matmul_dp_dind_matrix.py:160`), whose blocks are
  122880 bytes (`GemmProtocol.TwoRanksDoNotFit`). All messages of the MLP fit
  (`MlpTransport.EveryMessageFits`).
- Items without a partner are charged to the group of the first write of their key
  (`scripts/collect_timing_metrics.py:151-155`). That miscounts a log in which records of one key belong to
  different groups (`TransferConservation.DividedWritesAreMiscounted`). A log is counted rightly together
  with all its parts if and only if no key is divided in this way
  (`TransferConservation.ConservedInAllPartsIfUndivided`), and routers never write a log that divides one.
- The power-of-two check of `real/mlp_dp_cpu.cpp:219-222` is not only a policy: for any other rank
  count the broadcast leaves some rank without the model (`MlpScaling.BroadcastReachesEveryRank`).
- The routing file is not checked against the topology. A pipe finds a gateway exactly if both worker
  slots are in the topology (`PipeRouting.GatewayExists`).

Source paths and lines below are those of the repository.

## Model

| member | source | states |
|---|---|---|
| Network.Commute | real/simbricks_pipe_router.py:159-172 | steps of two different processes commute on the channels, even when one fills what the other drains |
| Network.FirstStepIsFree | real/simbricks_pipe_router.py:159-172 | if a run ends, it still ends, one step earlier and in the same state, after any other first step |
| Network.EveryRunMeets | real/simbricks_pipe_router.py:159-172 | whatever steps were taken, the rest of the way to the one end state takes exactly the remaining number of steps |
| Network.EveryRunEndsAlike | real/simbricks_pipe_router.py:159-172 | no run is longer than a run that ends, every state on the way is the missing number of steps from the same end, and only the end is stuck |
| Network.NoMisfitOnTheWay | real/simbricks_pipe_router.py:159-172 | a receive that finds a message of another length stays blocked for good, so if there is none at the end there is none in any reachable state |
| MlpReference.LevelKeepsGroupSums | real/mlp_dp_cpu.cpp:104-126 | tree invariant: an active rank holds the bracketed sum of its own group of `stride` ranks, and one level doubles the groups, for any rank count |
| MlpReference.TreeReduceIsTreeSum | real/mlp_dp_cpu.cpp:104-126 | rank 0 ends with the balanced bracketing of all gradients in rank order, for any rank count and any addition |
| MlpReference.TreeAgreesWithSerialOrder | scripts/mlp_dp_reference.py:74-94 | associativity alone makes the tree reduction equal to the rank-ordered one; no operand is ever moved past another |
| MlpReference.RankOrderedReduce | scripts/mlp_dp_reference.py:74-79 | the result is the last of the running totals that start with the gradient of rank 0 and add one rank after another, for any addition |
| MlpReference.RunningTotalIsFold | scripts/mlp_dp_reference.py:74-79 | every such history of running totals ends with the left fold, of which the lemmas about trees speak |
| MlpReference.BinaryTreeReduce | scripts/mlp_dp_reference.py:82-94 | the in-place loop over an array computes the balanced bracketing when the rank count is a power of two |
| MlpProcess.CpuProcess.StartBarrier | real/mlp_dp_cpu.cpp:180-195 | the barrier's loops exchange exactly the tokens of the protocol, in its order |
| MlpProcess.CpuProcess.ReduceGradientTree | real/mlp_dp_cpu.cpp:104-126 | the stride loop sends, receives and adds as the protocol does, whatever it receives, and leaves its sum in the gradient |
| MlpProcess.CpuProcess.BroadcastModelTree | real/mlp_dp_cpu.cpp:128-145 | the halving loop passes the model on, and takes it in, as the protocol does; it receives once on every rank but the root, and never on the root |
| MlpProcess.CpuProcess.SynchroniseModel | real/mlp_dp_cpu.cpp:147-156 | reduce, update on rank 0 only, broadcast: one round of the protocol |
| MlpProcess.CpuProcess.SendToGpu | real/mlp_dp_cpu.cpp:77-88 | header, then model, to one GPU |
| MlpProcess.CpuProcess.FinishBarrier | real/mlp_dp_cpu.cpp:197-207 | the closing tokens, as in the protocol |
| MlpProcess.CpuProcess.StopGpuWorkers | real/mlp_dp_cpu.cpp:158-163 | the stop headers, as in the protocol |
| MlpProcess.CpuProcess.Iterate | real/mlp_dp_cpu.cpp:240-246 | one round of the main loop takes the protocol from one loop head to the next |
| MlpProcess.CpuProcess.Run | real/mlp_dp_cpu.cpp:231-252 | for arbitrary received values, the whole program is a path of the protocol from its entry to its exit, with the same model and gradient |
| MlpProcess.GpuProcess.Serve | real/mlp_dp_gpu.cu:99-134 | the worker loop follows the protocol until it exits, rejects a header, or blocks on a message that never comes, just where the protocol blocks |
| MlpProcess.RunsFollowTheProtocol | real/mlp_dp_cpu.cpp:210-255 | in every run of the network each process stands where its own actions lead it in the protocol |
| MlpProcess.Deterministic | real/mlp_dp_cpu.cpp:210-255 | of two courses of one process that hear the same, one is a prefix of the other |
| MlpProcess.RankRunsItsProgram | real/mlp_dp_cpu.cpp:231-252 | in every finished run, a rank has taken exactly the actions of its program on the vectors it received, and its program ends with the reference model |
| MlpProcess.WorkerRunsItsProgram | real/mlp_dp_gpu.cu:99-134 | in every finished run, a GPU worker has taken exactly the actions of its program on what it received, and has received nothing more |
| MlpPrograms.ProgramHasARun | real/mlp_dp_cpu.cpp:231-252 | for every supply of vectors the program of a rank has a run, from its entry to its exit |
| MlpPrograms.WorkerHasARun | real/mlp_dp_gpu.cu:99-134 | for every inbox the program of a worker has a run, up to its exit, a rejection, or a message that never comes |
| MlpPrograms.EveryRankRunsItsProgram | real/mlp_dp_cpu.cpp:231-252 | in every finished run there is a supply of vectors with which a rank's actions are the only run of its program, which ends with the reference model |
| MlpPrograms.EveryWorkerRunsItsProgram | real/mlp_dp_gpu.cu:99-134 | in every finished run a worker's actions are the only run of its program on what it received |
| MlpSchedule.StartBarrier | real/mlp_dp_cpu.cpp:180-195 | all ranks together get from their entry to the first loop head, with empty channels |
| MlpSchedule.ReduceTree | real/mlp_dp_cpu.cpp:104-126 | the ranks together turn their gradients into those of the reference reduction |
| MlpSchedule.BroadcastTree | real/mlp_dp_cpu.cpp:128-145 | the ranks together spread the root's model to every rank, from any stale models |
| MlpSchedule.Iterate | real/mlp_dp_cpu.cpp:240-246 | one round of all processes is one round of the sequential loop |
| MlpSchedule.Shutdown | real/mlp_dp_cpu.cpp:197-207 | finish barrier and stop headers bring all processes to their exit, with empty channels |
| MlpSchedule.CompleteRun | real/mlp_dp_cpu.cpp:210-255 | there is a complete run, and its end is terminal |
| MlpSchedule.EveryRunTrainsTheReference | real/mlp_dp_cpu.cpp:104-246 | main result: for every accepted job and every interleaving, any reached state is a fixed number of steps from the state in which all ranks hold `reference_model("binary_tree")`, all processes have exited and all channels are empty; nothing else is terminal |
| MlpSchedule.NoProcessFails | real/mlp_dp_gpu.cu:113-118 | in no reachable state has a GPU worker rejected a header, or any process taken a message for one of another kind |
| MlpSchedule.EveryReceiveFits | real/mlp_dp_cpu.cpp:77-94 | in every reachable state, the message at the head of the channel that a process waits on has the kind (token, header, model or gradient) and the length that it asks for |
| MlpScaling.TestIsExact | real/mlp_dp_cpu.cpp:100-102 | the bit test holds exactly for powers of two, for every integer |
| MlpScaling.BroadcastReachesEveryRank | real/mlp_dp_cpu.cpp:219-222 | the broadcast reaches every rank if and only if the rank count passes the check of `main` |
| MlpScaling.HoldersAreMultiples | real/mlp_dp_cpu.cpp:128-145 | loop invariant: the root alone is the multiples of the rank count, and a level takes the holders from the multiples of twice its stride to the multiples of its stride |
| MlpScaling.EveryRankReceivesOnce | real/mlp_dp_cpu.cpp:139-143 | the receiving conditions of all levels together hold once for every rank but the root; `BroadcastModelTree` receives that often |
| MlpScaling.ShardsPartitionTheSamples | real/mlp_dp_gpu.cu:48-49 | the shard map is a bijection between (rank, GPU, local index) and the samples |
| MlpScaling.SamplesOfWorker | scripts/mlp_dp_reference.py:38-45 | the first sample of either GPU of a rank, and the step from one sample to the next |
| MlpScaling.ReducedGradientIsFullBatch | scripts/mlp_dp_reference.py:38-45 | over exact arithmetic the reduced gradient is that of the whole batch, for any rank count |
| MlpScaling.EveryRankCountTrainsTheSameModel | scripts/mlp_dp_reference.py:97-118 | over exact arithmetic every admissible rank count trains the model of full-batch descent |
| MlpTraining.Train | scripts/mlp_dp_reference.py:97-118 | the result is the last model of a history that starts with the initial model and, round by round, updates it with the reduced gradients of all ranks |
| MlpTraining.GradientsOfRanks | scripts/mlp_dp_reference.py:111-114 | rank by rank, the gradient of GPU 0 plus that of GPU 1 |
| MlpTraining.LocalGradient | real/mlp_dp_gpu.cu:47-86 | a worker's loop accumulates the contributions of exactly the samples of its shard, in order, each with its number by rank, GPU and local index |
| MlpTraining.ReductionsTrainAlike | scripts/mlp_dp_reference.py:97-118 | with an associative addition both reductions train the same model over whole trainings |
| MlpTraining.DistributedTrainingIsSerial | real/mlp_dp_cpu.cpp:238-246 | with an associative addition every run at rest holds the serially reduced model on every rank |
| MlpTraining.DistributedTrainingIsFullBatch | real/mlp_dp_cpu.cpp:238-246 | over exact arithmetic every run at rest holds the full-batch model on every rank, whatever rank count and interleaving |
| PipeNetwork.RunMatches | real/simbricks_pipe_router.py:68-96 | every run of processes, routers, gateways and rings is a run of the network in the order in which the processes act: a step for every action, none for the gateway threads |
| PipeNetwork.RunIsShort | real/simbricks_pipe_gateway.cc:195-268 | a run has at most five moves for every action of a process and two for every failed attempt to find a ring entry, so nothing else can go on forever |
| PipeNetwork.RestingIsTerminal | real/simbricks_pipe_gateway.cc:173-268 | when nothing can move on the transport, no process of the network can move: every message has arrived at its reader |
| PipeNetwork.EveryRunComesToTheEnd | real/simbricks_pipe_router.py:68-96 | for any processes whose network has a run that ends: over the transport they take no more actions, and at rest they are where that run ends, with nothing under way in any pipe |
| PipeNetwork.GoOnToRest | real/simbricks_pipe_gateway.cc:195-268 | every run over the transport can go on until it is at rest, without another failed attempt at the ring |
| PipeWaiting.OnlyArrivalsServe | real/simbricks_pipe_gateway.cc:227-268 | if a move of somebody else lets a read be served, it is the arrival of a payload at the condition where its reader sleeps |
| PipeWaiting.TurnKeepsInv | real/simbricks_pipe_gateway.cc:173-180 | every turn keeps that no reader sleeps in front of its payload without a notification to come, as every process has one read outstanding and is the only reader of its pipes |
| PipeWaiting.TurnsAreMoves | real/simbricks_pipe_router.py:159-171 | a run with readers that sleep and wake is, in its moves, a run of processes whose reads are served at once |
| PipeWaiting.EveryRunComesToTheEnd | real/simbricks_pipe_gateway.cc:173-268 | for any processes whose network has a run that ends: with readers that sleep until they are woken nobody oversleeps, the turns are bounded, and when nobody can take one all processes are at that end and all pipes are empty |
| Memory.LongsRoundTrip | real/matmul_dp_cpu.cpp:90-102 | arrays of 64-bit integers are read back from their bytes |
| Memory.LittleIsLowFirst | real/matmul_dp_cpu.cpp:90-102 | in memory the low byte comes first |
| MlpTransport.MessageRoundTrip | real/mlp_dp_cpu.cpp:42-45 | bytes without a tag are decoded to the message that was sent, as the receiver's place in its program says what they are |
| MlpTransport.EveryMessageFits | real/simbricks_pipe_router.py:81-81 | every message of the MLP has its declared length, and passes the router's limit |
| MlpTransport.EveryRunTrainsTheReference | real/mlp_dp_cpu.cpp:104-246 | main result, over the transport: every run of processes, routers, gateways and rings is bounded, can move until the end, and at rest all ranks hold the reference model, all processes have exited and all pipes are empty |
| MlpTransport.EveryWaitingRunTrainsTheReference | real/mlp_dp_cpu.cpp:104-246 | the same with readers that sleep on the conditions of routers and gateways: nobody oversleeps, and when nobody can take a turn all ranks hold the reference model |
| MlpTransport.EveryRankRunsItsProgram | real/mlp_dp_cpu.cpp:231-252 | in every run over the transport that is at rest, a rank has done what its program does with what it received, and nothing else |
| MlpTransport.EveryWorkerRunsItsProgram | real/mlp_dp_gpu.cu:99-134 | and so has a GPU worker |
| PipeFrame.NetworkRoundTrip | real/simbricks_pipe_protocol.h:17-23 | 32-bit lengths survive network byte order |
| PipeFrame.NetworkOrder | real/simbricks_pipe_protocol.h:17-23 | numbers compare as their bytes do: the high byte goes first |
| PipeFrame.FrameRoundTrip | real/simbricks_pipe_gateway.cc:191-259 | every accepted write fits a ring entry, passes every check of the receiver and comes out unchanged, whatever the entry held before |
| PipeFrame.DecodedIsFrame | real/simbricks_pipe_gateway.cc:227-259 | conversely, what the receiver takes is a frame of an acceptable write, up to the bytes nobody looks at, and what it refuses is no such frame |
| PipeLink.EnqueueAppends | real/simbricks_pipe_gateway.cc:155-166 | queueing a write appends it to what is under way for its pipe, and to no other pipe |
| PipeLink.TransmitKeeps | real/simbricks_pipe_gateway.cc:195-225 | moving a write into the ring changes nothing for any pipe |
| PipeLink.CompleteKeeps | real/simbricks_pipe_gateway.cc:195-225 | the second critical section takes off exactly the write just sent |
| PipeLink.PollKeeps | real/simbricks_pipe_gateway.cc:227-268 | receiving a frame hands it to its pipe and changes no order |
| PipeLink.ReadTakesTheOldest | real/simbricks_pipe_gateway.cc:173-187 | a read takes the oldest payload under way for its pipe |
| PipeGateway.ReadAll | real/simbricks_pipe_gateway.cc:63-72 | exactly the requested bytes are read, however they are chunked, or the stream ended too early |
| PipeGateway.ReadLine | real/simbricks_pipe_gateway.cc:85-93 | succeeds exactly if a newline is among the first 512 bytes, and takes nothing behind it |
| PipeGateway.LoopDeliversInOrder | real/simbricks_pipe_gateway.cc:227-268 | the receive loop appends to every pipe its payloads in ring order |
| PipeGateway.Gateway.QueueWrite | real/simbricks_pipe_gateway.cc:146-166 | a write is appended exactly if name and size are acceptable |
| PipeGateway.Gateway.ForwardOneWrite | real/simbricks_pipe_gateway.cc:195-225 | with any writes queued while the lock is free, the entry holds the front's frame, exactly the front is removed and only its client is told of success; without a free entry nothing is lost |
| PipeGateway.Gateway.ReceiveAll | real/simbricks_pipe_gateway.cc:227-268 | the loop is the receive function, up to a termination message |
| PipeGateway.Gateway.TryRead | real/simbricks_pipe_gateway.cc:173-187 | served exactly if the head of the pipe has the requested size |
| PipeGateway.FillEntry | real/simbricks_pipe_gateway.cc:203-219 | writing the fields one after another yields the frame in front of the stale bytes |
| PipeWire.DecimalRoundTrip | real/remote_pipe_comm.h:157-178 | decimal byte counts are read back |
| PipeWire.DecimalDigits | real/remote_pipe_comm.h:157-178 | the high digit comes first, without zeros in front |
| PipeWire.RouterUnderstands | real/simbricks_pipe_router.py:70-83 | the router reads the client's header back, less directories in front of the name, if and only if it is ASCII, within the line limit and the size limit; otherwise it refuses it |
| PipeWire.GatewayUnderstands | real/simbricks_pipe_gateway.cc:142-153 | the gateway's parser reads the same header back if and only if name and size fit; otherwise it refuses it |
| PipeWire.RequestSurvives | real/simbricks_pipe_router.py:79-95 | a client's request with an ASCII name passes router and gateway as the same operation, normalised name and size |
| PipeRequest.ReadRequest | real/simbricks_pipe_gateway.cc:134-161 | for every byte stream in arbitrary chunks: the request and payload it holds, or a refusal |
| PipeRequest.RequestArrives | real/simbricks_pipe_gateway.cc:134-161 | every admissible request with its payload is recovered exactly, whatever follows it |
| PipeRequest.RequestIsTaken | real/simbricks_pipe_gateway.cc:134-161 | any header followed by any bytes is taken with exactly its payload, or refused: exactly if the line is too long, name or size do not fit, or the payload is short |
| PipeRouting.BasenameDropsDirectories | real/simbricks_pipe_router.py:75-79 | any directory prefix is stripped, and nothing else |
| PipeRouting.PipeNameRoundTrip | real/simbricks_pipe_router.py:56-66 | pipe names and the coordinates in them correspond |
| PipeRouting.PlaceCoordinates | real/generate_simbricks_routing.py:38-47 | a map exists exactly if no coordinate is placed on two slots, and then holds exactly the placed coordinates |
| PipeRouting.WorkerPairChannels | real/generate_simbricks_topology.py:39-53 | one channel with its own port for every pair of workers; refused exactly if the ports run out |
| PipeRouting.StartGateways | real/simbricks_worker_supervisor.py:136-196 | one gateway for every channel that ends at the worker, on the port of its peer, all listeners first |
| PipeRouting.WriterAndReaderMeet | real/simbricks_pipe_router.py:52-66 | for every placed pipe both routers stay local, or reach the two ends of one and the same channel, and nobody else answers there |
| PipeRouting.GatewayExists | real/simbricks_pipe_router.py:174-180 | a gateway answers for a peer if and only if both slots are in the topology |
| PipeRouter.Router.constructor | real/simbricks_pipe_router.py:40-54 | a gateway port for exactly the other slots in the routing |
| PipeRouter.Router.HandleLocal | real/simbricks_pipe_router.py:159-172 | a write grows its pipe by the payload; a read is answered exactly if the head has its size, and the answer with the pipe left is the pipe before; no other pipe changes |
| PipeRouter.Router.Handle | real/simbricks_pipe_router.py:68-96 | for all bytes a client may send: a malformed line, a size above the limit, a short payload and a peer without a place are refused, each with its reason, and change nothing; a local write grows its pipe by exactly the payload; a local read gets the head if it has its size, and waits otherwise; all else goes to the gateway of the peer |
| PipeRouter.ClientIsAnswered | real/simbricks_pipe_router.py:68-96 | so is every header a client can write, of any size, answered case by case, whatever bytes follow |
| PipeRouter.MalformedIsRefused | real/simbricks_pipe_router.py:70-83 | a line that is no header is refused, and the pipes stay |
| PipeRouter.RequestIsServed | real/simbricks_pipe_router.py:68-96 | a request as the client sends it, with its payload behind the line, is served as what it says |
| PipeRouter.ForwardedRequestArrives | real/simbricks_pipe_router.py:84-95 | codec end to end: out of what the router forwards, followed by anything, the gateway takes the client's operation, the normalised name, the size and the payload |
| PipeRouter.WriteIsMeshStep | real/simbricks_pipe_router.py:68-96 | a write request does to the router what the mesh step does, or goes on to the reader's gateway as bytes out of which this gateway takes the same write |
| PipeRouter.LocalReadIsMeshStep | real/simbricks_pipe_router.py:159-172 | a local read is answered exactly when the mesh can serve it, with the head of the queue |
| PipeRouter.RemoteReadIsForwarded | real/simbricks_pipe_router.py:84-95 | a read of a remote pipe goes to the gateway for the writer's worker, which takes the same read out of the bytes |
| PipeRouter.RouterLogsAgree | real/simbricks_pipe_router.py:100-126 | both ends of a pipe log the same scope |
| PipeRouter.RecordByFields | real/simbricks_pipe_router.py:100-126 | a record has the start and end of its request, and is cross-host, same-host or same-worker as the slots and physical slots of both ends say |
| PipeMesh.StepInv | real/simbricks_pipe_gateway.cc:155-268 | every step of any router or gateway thread keeps, for all pipes, accepted = delivered followed by what is under way |
| PipeMesh.StepMoves | real/simbricks_pipe_gateway.cc:155-268 | seen from any one pipe, a step of any router or thread takes in its own write, hands out the oldest payload to its own read, and changes nothing else in what is under way |
| PipeMesh.EveryPipeIsAFifo | real/simbricks_pipe_gateway.cc:155-268 | in every run nothing is lost, doubled, reordered or moved to another pipe: reads see a prefix of the writes, and all of them once nothing is under way |
| PipeMesh.SentWriteIsTheFront | real/simbricks_pipe_gateway.cc:195-225 | in every reachable state a sent write is still the front of its queue, although the lock was free, and every ring entry decodes |
| PipeMesh.RouterLimitFitsGateway | real/simbricks_pipe_router.py:20-20 | the router's size limit fits the gateway if and only if the BaseIf header takes at most 261 bytes |
| Wakeup.BrokerLosesNoWakeup | real/fifo_broker.py:37-49 | in every run the notified readers are at least min(waiting messages, blocked readers), and what was written is what was taken, lost payloads included, followed by what waits |
| Wakeup.UnluckyReadLosesThePayload | real/fifo_broker.py:86-89 | a write of one size and a read of another is a run that loses the payload |
| Wakeup.NothingIsLostIfAllSizesAgree | real/fifo_broker.py:69-89 | no run with writes and reads of given sizes loses a payload if and only if all these sizes are equal |
| Wakeup.PipeBroker.Put | real/fifo_broker.py:37-43 | appends the payload and wakes one reader of this pipe, or refuses it and changes nothing |
| Wakeup.PipeBroker.Get | real/fifo_broker.py:44-51 | takes the head, a misfit as well, or sleeps |
| Wakeup.PipeBroker.Wake | real/fifo_broker.py:78-87 | a woken reader looks again, and goes back to sleep if another one was faster |
| Wakeup.PipeBroker.Serve | real/fifo_broker.py:59-92 | a request is answered with the head if it has the requested size, with a mismatch if it has not, or not yet |
| Wakeup.OneReaderIsSafe | real/simbricks_pipe_router.py:159-171 | with one outstanding reader per pipe no reader sleeps in front of its payload, in any run, whatever the sizes |
| Wakeup.OneSizeIsSafe | real/simbricks_pipe_router.py:159-171 | with one size per pipe no reader sleeps in front of its payload, in any run |
| Wakeup.UnluckyRunLosesAWakeup | real/simbricks_pipe_router.py:159-171 | for any two different sizes there is a run in which one does |
| Wakeup.WhenWakeupsSuffice | real/simbricks_pipe_gateway.cc:173-180 | waking on arrival only, after the lock is released, is enough if and only if there is one reader at a time or all sizes are equal |
| Phase2.FragmentsCarryAllBytes | real/ns3_phase2.cc:504-511 | fragments are never empty, fit a datagram and carry exactly the bytes of the transaction |
| Phase2.PhaseTwoSimulator.constructor | real/ns3_phase2.cc:304-322 | one fresh trace per record; it expects fragments that carry exactly the bytes of the record and, back, of one flit for special records, from the ends that the descriptor bits name |
| Phase2.PhaseTwoSimulator.Schedule | real/ns3_phase2.cc:586-597 | at most one agenda entry, never in the past |
| Phase2.PhaseTwoSimulator.Send | real/ns3_phase2.cc:521-547 | a local direction gets both times one cycle from now, a remote one changes nothing; the other direction stays, and the agenda grows only for a special forward direction, once, by the acknowledgement in due time |
| Phase2.PhaseTwoSimulator.TransmitEnd | real/ns3_phase2.cc:549-562 | counts fragments at the source only, and only until the finish time is set |
| Phase2.PhaseTwoSimulator.Receive | real/ns3_phase2.cc:564-584 | counts fragments at the destination only, sets the arrival with the last one and then may schedule the acknowledgement |
| Phase2Runs.StepInv | real/ns3_phase2.cc:521-597 | every event, duplicate or out of order, keeps the invariant of fragments, times and agenda |
| Phase2Runs.CompletionTimesAreExact | real/ns3_phase2.cc:549-584 | a completion time is set exactly when all fragments have been seen, and transmission never finishes after arrival |
| Phase2Runs.EveryTraceCarriesItsRecord | real/ns3_phase2.cc:304-322 | so in every state of every run: what the completion times count against is always the bytes of the record |
| Phase2Runs.AcknowledgedExactlyOnce | real/ns3_phase2.cc:564-597 | one acknowledgement is scheduled if and only if the record is special and its forward direction has arrived, for the later of the arrival and the destination's own cycle, from which the reports count |
| Phase2Runs.CompletionTimesAreWrittenOnce | real/ns3_phase2.cc:549-584 | a completion time never changes again, in either direction |
| Phase2Reports.WriteSummary | real/ns3_phase2.cc:434-487 | the accumulating loop yields the totals; it fails exactly if a localized record has no worker slot |
| Phase2Reports.SummaryAddsUp | real/ns3_phase2.cc:434-487 | the totals are the numbers of rows and special rows, the sum of all bytes, and the sums of the delays of the normal rows |
| Phase2Reports.WriteMetricsCsv | real/ns3_phase2.cc:383-432 | one row per trace; it fails under the same condition |
| Phase2Reports.RowByFields | real/ns3_phase2.cc:383-432 | each cell of a row, the acknowledgement's cycles included, in terms of the record and of the times of its trace |
| Phase2Reports.CollectNs3Metrics | scripts/collect_timing_metrics.py:205-234 | the collector's loop yields the totals of the rows |
| Phase2Reports.CollectedAddsUp | scripts/collect_timing_metrics.py:205-234 | the collector's payload is the sum of the bytes of the normal rows |
| Phase2Reports.SummaryAndCollectorAgree | real/ns3_phase2.cc:383-487 | collecting the CSV gives the summary's totals, for every list of traces, localized or not |
| Phase2Reports.FinishedRunsAreReportable | real/ns3_phase2.cc:325-344 | a run that passes the final completeness check leaves traces for which the report properties hold |
| Phase2Reports.RowIsConsistent | real/ns3_phase2.cc:346-410 | source cycle plus delay is the absolute cycle although each is rounded up alone, source delay is at most destination delay, and CSV and delayInfo agree |
| Phase2Runs.SentAsScheduled | real/ns3_phase2.cc:586-597 | an acknowledgement that was sent in a run was sent at the time of its agenda entry |
| Phase2Runs.EverySendAsScheduled | real/ns3_phase2.cc:586-597 | so was every single send of an acknowledgement |
| Phase2Reports.AcknowledgementWasSent | real/ns3_phase2.cc:325-344 | a special record that passes the completeness check has had its acknowledgement sent |
| Phase2Reports.AcknowledgementDelays | real/ns3_phase2.cc:353-379 | in every completed run, the reported acknowledgement delays are whole cycles, rounded up, from the agenda time at which it was sent |
| Phase2Reports.LocalTransferTakesOneCycle | real/ns3_phase2.cc:525-534 | in every completed run, a transfer that stays on its node is reported with one cycle in each direction |
| Phase2Reports.CyclesShift | real/ns3_phase2.cc:111-120 | rounding up commutes with shifting by whole cycles |
| Intervals.IntervalUnion | scripts/collect_timing_metrics.py:41-54 | the sweep counts the points covered by the union, for any order of the intervals |
| Intervals.UnionDuration | scripts/summarize_steady_measurement.py:49-59 | the other sweep counts the same set, also with empty and reversed intervals |
| Intervals.ClipAll | scripts/summarize_steady_measurement.py:155-166 | clipping leaves exactly the covered points inside the window, one interval for every read that reaches into it |
| Intervals.SynchronisationOverhead | scripts/summarize_steady_measurement.py:152-177 | the overhead is the covered part of the window, the percentage is its share of the window, and the events are the reads that reach into it; zero exactly without events |
| Intervals.PointsWithin | scripts/collect_timing_metrics.py:41-54 | intervals within others cover no more points |
| TransferMetrics.PairingIsTheTruth | scripts/collect_timing_metrics.py:81-149 | for a FIFO history with one writer and one reader, by the start times of the writes and end times of the reads, in a log of any order and with any other records: under each key the pairs are exactly (write, read that consumed it), each once |
| TransferMetrics.SortedByFields | scripts/collect_timing_metrics.py:129-130 | the lists that are paired are the records in nondecreasing order of start for writes and of end for reads, a missing time first, and are stable |
| PipeLog.RunsAreFifoHistories | real/simbricks_pipe_router.py:100-126 | the logs of every run of the transport are FIFO histories: the k-th read record is of the payload of the k-th write record |
| PipeLog.PairingIsTheTruthOfRuns | scripts/collect_timing_metrics.py:81-149 | so for every run of the transport in which a later write of a pipe starts later, and a later read ends later, the pairs under each key are exactly (write, read that got its payload), each once, in a log of any order |
| TransferMetrics.GroupByKey | scripts/collect_timing_metrics.py:117-125 | groups exactly the records with a key, in log order |
| TransferMetrics.GroupsByFields | scripts/collect_timing_metrics.py:56-78 | which records are in which group, by the fields of the record |
| TransferMetrics.MeasurePairs | scripts/collect_timing_metrics.py:128-149 | a point is exposed exactly if some pair has all its times and the point is at or after both starts and before the end of the read; counts exactly the pairs whose read does not end before one of the starts, per group |
| TransferMetrics.ExposureByFields | scripts/collect_timing_metrics.py:140-149 | a pair is skipped exactly if a time is missing or the read ends before one of the starts, and otherwise is exposed from the later start to that end |
| TransferMetrics.CollectExposed | scripts/collect_timing_metrics.py:104-159 | the totals over an enumeration of all keys; the exposed points are those at or after both starts and before the end of the read of some pair under some key |
| TransferMetrics.AnyOrderOfKeys | scripts/collect_timing_metrics.py:128-128 | the order of the keys does not show in the totals |
| TransferMetrics.TotalsAreConserved | scripts/collect_timing_metrics.py:128-156 | for group `all` and any log, pairs plus unmatched items are exactly the keyed writes, and likewise the keyed reads |
| TransferConservation.GroupIsConserved | scripts/collect_timing_metrics.py:128-156 | so they are for every group, writes and reads alike, if the records under each key are all in the group or all outside it |
| TransferConservation.RouterLogIsConserved | real/simbricks_pipe_router.py:100-126 | so they are for every group in every log that routers write |
| TransferConservation.ConservedInAllPartsIfUndivided | scripts/collect_timing_metrics.py:151-155 | a log is conserved for a group together with all its parts if and only if no key is divided by the group |
| TransferConservation.DividedWritesAreMiscounted | scripts/collect_timing_metrics.py:151-155 | two writes under one key, the first across hosts, the second not: both are charged as crossing, for one that does |
| TransferConservation.DividedPairsAreCounted | scripts/collect_timing_metrics.py:136-149 | why the condition is about all parts: this log divides its key, and is conserved as a whole, since all its items are in pairs |
| TransferMetrics.ExposedIsWithinReads | scripts/collect_timing_metrics.py:104-159 | exposed transport covers no more than the raw blocking reads and no more than its own sum: always for group `all`, for the others if both ends logged one scope |
| TransferMetrics.CollectReads | scripts/collect_timing_metrics.py:179-200 | the points of the blocking reads of a group, by the fields of the records, and their number |
| TransferMetrics.ReadGroupsAreNested | scripts/collect_timing_metrics.py:69-78 | the read unions are nested: physical hosts within LEGOSim workers within all |
| GemmBlocks.FillB | real/matmul_dp_cpu.cpp:52-60 | column numbers in every row |
| GemmBlocks.FillA | real/matmul_dp_cpu.cpp:62-68 | global row numbers in every column |
| GemmBlocks.CheckBlock | real/matmul_dp_cpu.cpp:70-82 | accepts a block if and only if it is the product of the filled matrices |
| GemmBlocks.Checksum | real/matmul_dp_cpu.cpp:84-88 | the sum of all entries |
| GemmBlocks.Thread | real/matmul_dp_gpu.cu:23-30 | writes its own cell only, and nothing outside the block |
| GemmBlocks.BlockGemm | real/matmul_dp_gpu.cu:77-80 | the launch over the rounded-up grid computes the product, in buffers that may be larger |
| GemmBlocks.EntryOfProduct | real/matmul_dp_gpu.cu:23-30 | every entry of the product is the last of the running sums of its row times its column |
| GemmBlocks.StackedProducts | real/matmul_dp_cpu.cpp:138-149 | for any matrix cut into row blocks, stacking the products is multiplying the stack |
| GemmBlocks.BlocksAreTheWhole | real/matmul_dp_cpu.cpp:138-149 | the blocks of all ranks stack to the block of all rows |
| GemmBlocks.ChecksumOfRows | scripts/validate_matmul_dp_results.py:11-14 | the checksum of the first rows is inner dimension times row numbers times column numbers |
| GemmProtocol.WorkersAreApart | real/matmul_dp_cpu.cpp:37-41 | worker coordinates are distinct, and hit the controller's only for rank 35 |
| GemmProtocol.HeaderFits | real/matmul_dp_gpu.cu:68-71 | every header passes the worker's checks |
| GemmProtocol.ChecksumIsExpected | scripts/validate_matmul_dp_results.py:14-14 | the accumulated checksum is the validator's constant, for every accepted rank count |
| GemmProtocol.ChecksumConstant | scripts/validate_matmul_dp_results.py:14-14 | this constant is 15367372800 and fits its 64-bit type |
| GemmProtocol.EveryRunIsVerified | real/matmul_dp_cpu.cpp:118-157 | over a transport that takes the messages, every interleaving ends, after a fixed number of steps, with all blocks accepted, the expected checksum, all workers stopped and empty channels |
| GemmProtocol.EveryMessageFits | real/simbricks_pipe_router.py:81-81 | the router takes every message of a run if and only if there are at least four ranks |
| GemmProtocol.TwoRanksDoNotFit | scripts/generate_matmul_dp_dind_matrix.py:160-160 | the two ranks of one node send blocks of 122880 bytes |
| GemmProtocol.NeverVerified | real/patch_sniper_recorder_diagnostics.py:11-23 | over a transport that refuses the blocks no run is ever verified, and the controller can only come to reject a block |
| GemmProtocol.VerifiedFromFourRanks | real/simbricks_pipe_router.py:81-81 | over the router's limit a run can be verified if and only if there are at least four ranks |
| GemmProtocol.EveryReceiveFits | real/matmul_dp_gpu.cu:63-85 | in every reachable state, the message at the head of the channel that a process waits on has the kind and the length that it asks for |
| GemmProtocol.NothingIsRejected | real/matmul_dp_gpu.cu:68-71 | in no reachable state has a worker rejected a header, the controller a block, or any process taken a message for one of another kind |
| GemmTransport.MessageRoundTrip | real/matmul_dp_cpu.cpp:90-102 | bytes without a tag are decoded to the message that was sent, as the receiver's place in its program says what they are |
| GemmTransport.EveryRunIsVerified | real/matmul_dp_cpu.cpp:118-157 | from four ranks on, over routers, gateways and rings and with readers that sleep until they are woken: every run is bounded, and when nobody can take a turn the result is verified, the workers are stopped and all pipes are empty |
| GemmTransport.VerifiedFromFourRanks | real/simbricks_pipe_router.py:81-81 | over the transport a run can be verified if and only if there are at least four ranks |

## Left out

- MlpReference.BinaryTreeReduce: takes a power of two, because the source indexes a child for every parent and fails otherwise; the tree lemmas hold for every rank count.
- MlpProcess.CpuProcess.Run: speaks of one program and arbitrary received values; blocking is in the protocol, where a receive waits for a message of its length, and `RankRunsItsProgram` brings the two together.
- MlpProtocol: floating point, softmax and ReLU are arbitrary functions; exact or associative addition is a hypothesis where it is used. The limit of eight ranks plays no part. Environment variables, timing and result printing are not modelled.
- GemmProtocol: a client ignores the answer of the transport, so a refused message is not sent and a refused read leaves the buffer as it is; the dispatch and collect loops are steps of the controller process, not loops; 64-bit integers are unbounded here; `GemmTransport` shows that all that is exchanged fits.
- PipeMesh: a process uses the router of the worker it was placed on, and may write again as soon as a write is taken in, which allows more runs than its waiting for the answer does; the ring is an unbounded lossless FIFO whose allocation may fail; BaseIf shared memory, `net_sockets` and the shutdown path are not part of this model.
- PipeNetwork.EveryRunComesToTheEnd: a read acts in one step when it can be served; `PipeWaiting` has readers that sleep and wake. That a gateway thread finds a free ring entry at some time is not proved, as it depends on the simulators at the other end.
- MlpTransport.EveryRunTrainsTheReference: takes any layout of vectors in memory that is exact, at most 100000 iterations as the program reads them, pipe names of at most 255 bytes and a BaseIf header of at most 261 bytes.
- PipeGateway.Gateway.TryRead: a read that has to wait is retried as a new call; the condition variable is the subject of `Wakeup` and `PipeWaiting`.
- PipeWire.RouterUnderstands: covers plain decimal byte counts, as the client writes them, not the other spellings that Python's `int` would accept.
- PipeRouter.Router.Handle: the answer of the gateway is passed on unchanged by the source and is not modelled; neither are connection errors.
- Wakeup.PipeBroker.Get: one pipe per condition as in the broker; a reader that is cancelled, and the base64 and JSON of the requests, are not modelled. Router and gateway notify the readers of all pipes at once; wakeups caused by other pipes only make readers look again.
- Phase2Runs.StepInv: ns-3 links, routing and queues are the environment, of which only this is assumed: a fragment is received after it left its source, and time does not go backwards.
- Phase2Reports.WriteSummary: text formatting, link counters and files are not modelled.
- PipeLog.RunsAreFifoHistories: takes a BaseIf header of at most 261 bytes and pipe names of at most 255, as the router would also log a write that the gateway then refuses; a later write of a pipe has a later start, and a later read a later end.
- TransferMetrics.CollectExposed: keys are taken in any order instead of sorted; fields that are no integers are absent fields.
- Intervals.IntervalUnion: takes intervals that do not end before they start, as its callers filter them.
- The choice of the measurement window in `scripts/summarize_steady_measurement.py`, the counters per record of `collect_pipe_metrics`, and the parsing of logs, JSON, YAML and CSV are plumbing.
- The client functions of `real/remote_pipe_comm.h` loop over sockets as the gateway does; only what they send is modelled.
- `real/bfs_cuda_compat.cpp`, `platform/`, process supervision, retries, timeouts and Docker or Swarm provisioning are not modelled.
