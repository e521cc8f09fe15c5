/** Four runs of three nodes, in order on every channel. In three of them a node locks a monitor it does not know to be
    created: in one the monitor's token is lost, in one a request is, and in one a node is left waiting for ever. None of
    these can happen under H. In the fourth, under H, a lock that came before its node was up is never granted. */
module Witness {
  import opened Basics
  import opened Token
  import opened Slot
  import opened Node
  import opened World
  import opened UserEvents
  import opened Refinement
  import opened Attention
  import opened Cluster
  import opened Startup
  import opened Tokens
  import opened Theorems
  import opened Always
  import opened Pending
  import opened Waiting
  import opened ThreeNodes

  // The cluster comes up (Start12). A state's name ends in the number of events so far; a node's is for the first state it
  // is found in.
  //
  // Lost: node 0 creates M. Node 2 declares M and so gets the system token (17). Node 1 declares M, which it cannot tell
  // exists, asks for the system token, and locks M all the same. Node 0 sends it M's token (21), so that node 1 enters M and
  // leaves it again (23), owning the token in a record that is not marked as created. Then the system token arrives, lists M,
  // and the owned flag is cleared (25).
  //
  // Missed: nodes 1 and 2 declare M, which does not exist, and node 2 locks it all the same. Its request reaches node 1 (17),
  // then the system token does, and node 1 creates M without looking at the request (19).
  //
  // Stuck: node 1 declares M, which does not exist, and locks it all the same (14). The system token arrives and node 1
  // creates M and enters it, with its entry in m_pendingRequests still there (16). It leaves M, node 0 asks for the token,
  // gets it, enters and leaves (23). Then node 1 locks M again, and as the entry is still there it sends nothing (24). What
  // is left on the channels changes nothing (27).
  //
  // Late: node 2 has not heard node 0's handshake yet (11). Node 0 creates M; node 1 declares it, hears that it exists (15)
  // and asks for its token. So node 2 hears of M (18), declares it, and locks it before it is up, which is noted and nothing
  // else (20). Then it comes up (21): it does not have the token, and m_pendingRequests does not have M. Node 1 gets the
  // token, enters M and leaves it again (24).

  // ---------------------------------------------------------------- the states

  function ZeroAtStart0(): Local { Joining({}) }
  function OneAtStart0(): Local { Joining({}) }
  function TwoAtStart0(): Local { Joining({}) }
  function ZeroAtStart6(): Local { Running(0, {}, Sys([0, 0, 0], [0, 0, 0], true, false), NONE) }
  function OneAtStart6(): Local { Running(0, {}, Sys([0, 0, 0], [0, 0, 0], false, false), NONE) }
  function TwoAtStart6(): Local { Running(0, {}, Sys([0, 0, 0], [0, 0, 0], false, false), NONE) }
  function ZeroAtStart8(): Local { Running(2, {}, Sys([0, 0, 0], [0, 0, 0], true, false), NONE) }
  function OneAtStart10(): Local { Running(2, {}, Sys([0, 0, 0], [0, 0, 0], false, false), NONE) }
  function TwoAtStart12(): Local { Running(2, {}, Sys([0, 0, 0], [0, 0, 0], false, false), NONE) }
  function TwoAtLate11(): Local { Running(1, {}, Sys([0, 0, 0], [0, 0, 0], false, false), NONE) }
  function ZeroAtLost13(): Local { Running(2, {M}, Sys([0, 0, 0], [0, 0, 0], true, false), Mon([0, 0, 0], [0, 0, 0], true, true, false, false, false)) }
  function TwoAtLost14(): Local { Running(2, {}, Sys([0, 0, 0], [0, 0, 1], false, true), Mon([0, 0, 0], [0, 0, 0], false, false, false, false, false)) }
  function ZeroAtLost15(): Local { Running(2, {M}, Sys([0, 0, 0], [0, 0, 1], false, false), Mon([0, 0, 0], [0, 0, 0], true, true, false, false, false)) }
  function OneAtLost16(): Local { Running(2, {}, Sys([0, 0, 0], [0, 0, 1], false, false), NONE) }
  function TwoAtLost17(): Local { Running(2, {M}, Sys([0, 0, 1], [0, 0, 1], true, false), Mon([0, 0, 0], [0, 0, 0], true, false, false, false, false)) }
  function OneAtLost18(): Local { Running(2, {}, Sys([0, 0, 0], [0, 1, 1], false, true), Mon([0, 0, 0], [0, 0, 0], false, false, false, false, false)) }
  function OneAtLost19(): Local { Running(2, {}, Sys([0, 0, 0], [0, 1, 1], false, true), Mon([0, 0, 0], [0, 1, 0], false, false, false, true, true)) }
  function ZeroAtLost20(): Local { Running(2, {M}, Sys([0, 0, 0], [0, 1, 1], false, false), Mon([0, 0, 0], [0, 0, 0], true, true, false, false, false)) }
  function ZeroAtLost21(): Local { Running(2, {M}, Sys([0, 0, 0], [0, 1, 1], false, false), Mon([0, 0, 0], [0, 1, 0], true, false, false, false, false)) }
  function OneAtLost22(): Local { Running(2, {}, Sys([0, 0, 0], [0, 1, 1], false, true), Mon([0, 0, 0], [0, 1, 0], false, true, true, false, false)) }
  function OneAtLost23(): Local { Running(2, {}, Sys([0, 0, 0], [0, 1, 1], false, true), Mon([0, 1, 0], [0, 1, 0], false, true, false, false, false)) }
  function TwoAtLost24(): Local { Running(2, {M}, Sys([0, 0, 1], [0, 1, 1], false, false), Mon([0, 0, 0], [0, 0, 0], true, false, false, false, false)) }
  function OneAtLost25(): Local { Running(2, {M}, Sys([0, 1, 1], [0, 1, 1], true, false), Mon([0, 1, 0], [0, 1, 0], true, false, false, false, false)) }
  function OneAtMissed13(): Local { Running(2, {}, Sys([0, 0, 0], [0, 1, 0], false, true), Mon([0, 0, 0], [0, 0, 0], false, false, false, false, false)) }
  function TwoAtMissed15(): Local { Running(2, {}, Sys([0, 0, 0], [0, 0, 1], false, true), Mon([0, 0, 0], [0, 0, 1], false, false, false, true, true)) }
  function OneAtMissed17(): Local { Running(2, {}, Sys([0, 0, 0], [0, 1, 1], false, true), Mon([0, 0, 0], [0, 0, 1], false, false, false, false, false)) }
  function ZeroAtMissed18(): Local { Running(2, {}, Sys([0, 0, 0], [0, 1, 0], false, false), NONE) }
  function OneAtMissed19(): Local { Running(2, {M}, Sys([0, 1, 0], [0, 1, 1], false, false), Mon([0, 0, 0], [0, 0, 1], true, true, false, false, false)) }
  function OneAtStuck14(): Local { Running(2, {}, Sys([0, 0, 0], [0, 1, 0], false, true), Mon([0, 0, 0], [0, 1, 0], false, false, false, true, true)) }
  function OneAtStuck16(): Local { Running(2, {M}, Sys([0, 1, 0], [0, 1, 0], true, false), Mon([0, 0, 0], [0, 1, 0], true, true, true, true, false)) }
  function OneAtStuck17(): Local { Running(2, {M}, Sys([0, 1, 0], [0, 1, 0], true, false), Mon([0, 1, 0], [0, 1, 0], true, true, false, true, false)) }
  function ZeroAtStuck18(): Local { Running(2, {}, Sys([0, 0, 0], [0, 1, 0], false, false), Noted([0, 1, 0])) }
  function ZeroAtStuck19(): Local { Running(2, {}, Sys([0, 0, 0], [0, 1, 0], false, false), Mon([0, 0, 0], [0, 1, 0], true, false, false, false, false)) }
  function ZeroAtStuck20(): Local { Running(2, {}, Sys([0, 0, 0], [0, 1, 0], false, false), Mon([0, 0, 0], [1, 1, 0], true, false, false, true, true)) }
  function OneAtStuck21(): Local { Running(2, {M}, Sys([0, 1, 0], [0, 1, 0], true, false), Mon([0, 1, 0], [1, 1, 0], true, false, false, true, false)) }
  function ZeroAtStuck22(): Local { Running(2, {}, Sys([0, 0, 0], [0, 1, 0], false, false), Mon([0, 1, 0], [1, 1, 0], true, true, true, false, false)) }
  function ZeroAtStuck23(): Local { Running(2, {}, Sys([0, 0, 0], [0, 1, 0], false, false), Mon([1, 1, 0], [1, 1, 0], true, true, false, false, false)) }
  function OneAtStuck24(): Local { Running(2, {M}, Sys([0, 1, 0], [0, 1, 0], true, false), Mon([0, 1, 0], [1, 1, 0], true, false, false, true, true)) }
  function TwoAtStuck25(): Local { Running(2, {}, Sys([0, 0, 0], [0, 1, 0], false, false), NONE) }
  function TwoAtStuck26(): Local { Running(2, {}, Sys([0, 0, 0], [0, 1, 0], false, false), Noted([0, 1, 0])) }
  function TwoAtStuck27(): Local { Running(2, {}, Sys([0, 0, 0], [0, 1, 0], false, false), Noted([1, 1, 0])) }
  function ZeroAtLate14(): Local { Running(2, {M}, Sys([0, 0, 0], [0, 1, 0], false, false), Mon([0, 0, 0], [0, 0, 0], true, true, false, false, false)) }
  function OneAtLate15(): Local { Running(2, {M}, Sys([0, 1, 0], [0, 1, 0], true, false), Mon([0, 0, 0], [0, 0, 0], true, false, false, false, false)) }
  function OneAtLate16(): Local { Running(2, {M}, Sys([0, 1, 0], [0, 1, 0], true, false), Mon([0, 0, 0], [0, 1, 0], true, false, false, true, true)) }
  function TwoAtLate17(): Local { Running(1, {}, Sys([0, 0, 0], [0, 1, 0], false, false), NONE) }
  function TwoAtLate18(): Local { Running(1, {}, Sys([0, 0, 0], [0, 1, 0], false, false), Noted([0, 1, 0])) }
  function TwoAtLate19(): Local { Running(1, {}, Sys([0, 0, 0], [0, 1, 0], false, false), Mon([0, 0, 0], [0, 1, 0], true, false, false, false, false)) }
  function TwoAtLate20(): Local { Running(1, {}, Sys([0, 0, 0], [0, 1, 0], false, false), Mon([0, 0, 0], [0, 1, 0], true, false, false, false, true)) }
  function TwoAtLate21(): Local { Running(2, {}, Sys([0, 0, 0], [0, 1, 0], false, false), Mon([0, 0, 0], [0, 1, 0], true, false, false, false, true)) }
  function ZeroAtLate22(): Local { Running(2, {M}, Sys([0, 0, 0], [0, 1, 0], false, false), Mon([0, 0, 0], [0, 1, 0], true, false, false, false, false)) }
  function OneAtLate23(): Local { Running(2, {M}, Sys([0, 1, 0], [0, 1, 0], true, false), Mon([0, 0, 0], [0, 1, 0], true, true, true, false, false)) }
  function OneAtLate24(): Local { Running(2, {M}, Sys([0, 1, 0], [0, 1, 0], true, false), Mon([0, 1, 0], [0, 1, 0], true, true, false, false, false)) }

  function Start0(): Conf { Conf([ZeroAtStart0(), OneAtStart0(), TwoAtStart0()], {}, 0) }
  function Start6(): Conf { Conf([ZeroAtStart6(), OneAtStart6(), TwoAtStart6()], {Packet(0, 1, 1, Handshake), Packet(0, 2, 1, Handshake), Packet(1, 0, 3, Handshake), Packet(1, 2, 3, Handshake), Packet(2, 0, 5, Handshake), Packet(2, 1, 5, Handshake)}, 6) }
  function Start8(): Conf { Conf([ZeroAtStart8(), OneAtStart6(), TwoAtStart6()], {Packet(0, 1, 1, Handshake), Packet(0, 2, 1, Handshake), Packet(1, 2, 3, Handshake), Packet(2, 1, 5, Handshake)}, 8) }
  function Start10(): Conf { Conf([ZeroAtStart8(), OneAtStart10(), TwoAtStart6()], {Packet(0, 2, 1, Handshake), Packet(1, 2, 3, Handshake)}, 10) }
  function Start12(): Conf { Conf([ZeroAtStart8(), OneAtStart10(), TwoAtStart12()], {}, 12) }
  function Late11(): Conf { Conf([ZeroAtStart8(), OneAtStart10(), TwoAtLate11()], {Packet(0, 2, 1, Handshake)}, 11) }
  function Lost13(): Conf { Conf([ZeroAtLost13(), OneAtStart10(), TwoAtStart12()], {}, 13) }
  function Lost14(): Conf { Conf([ZeroAtLost13(), OneAtStart10(), TwoAtLost14()], {Packet(2, 0, 13, Request(System, 1)), Packet(2, 1, 13, Request(System, 1))}, 14) }
  function Lost15(): Conf { Conf([ZeroAtLost15(), OneAtStart10(), TwoAtLost14()], {Packet(2, 1, 13, Request(System, 1)), Packet(0, 2, 14, Give(System, TokenData([0, 0, 0], [], {M}, map[])))}, 15) }
  function Lost16(): Conf { Conf([ZeroAtLost15(), OneAtLost16(), TwoAtLost14()], {Packet(0, 2, 14, Give(System, TokenData([0, 0, 0], [], {M}, map[])))}, 16) }
  function Lost17(): Conf { Conf([ZeroAtLost15(), OneAtLost16(), TwoAtLost17()], {}, 17) }
  function Lost18(): Conf { Conf([ZeroAtLost15(), OneAtLost18(), TwoAtLost17()], {Packet(1, 0, 17, Request(System, 1)), Packet(1, 2, 17, Request(System, 1))}, 18) }
  function Lost19(): Conf { Conf([ZeroAtLost15(), OneAtLost19(), TwoAtLost17()], {Packet(1, 0, 17, Request(System, 1)), Packet(1, 2, 17, Request(System, 1)), Packet(1, 0, 18, Request(M, 1)), Packet(1, 2, 18, Request(M, 1))}, 19) }
  function Lost20(): Conf { Conf([ZeroAtLost20(), OneAtLost19(), TwoAtLost17()], {Packet(1, 2, 17, Request(System, 1)), Packet(1, 0, 18, Request(M, 1)), Packet(1, 2, 18, Request(M, 1))}, 20) }
  function Lost21(): Conf { Conf([ZeroAtLost21(), OneAtLost19(), TwoAtLost17()], {Packet(1, 2, 17, Request(System, 1)), Packet(1, 2, 18, Request(M, 1)), Packet(0, 1, 20, Give(M, TokenData([0, 0, 0], [], {}, map[])))}, 21) }
  function Lost22(): Conf { Conf([ZeroAtLost21(), OneAtLost22(), TwoAtLost17()], {Packet(1, 2, 17, Request(System, 1)), Packet(1, 2, 18, Request(M, 1))}, 22) }
  function Lost23(): Conf { Conf([ZeroAtLost21(), OneAtLost23(), TwoAtLost17()], {Packet(1, 2, 17, Request(System, 1)), Packet(1, 2, 18, Request(M, 1))}, 23) }
  function Lost24(): Conf { Conf([ZeroAtLost21(), OneAtLost23(), TwoAtLost24()], {Packet(1, 2, 18, Request(M, 1)), Packet(2, 1, 23, Give(System, TokenData([0, 0, 1], [], {M}, map[])))}, 24) }
  function Lost25(): Conf { Conf([ZeroAtLost21(), OneAtLost25(), TwoAtLost24()], {Packet(1, 2, 18, Request(M, 1))}, 25) }
  function Missed13(): Conf { Conf([ZeroAtStart8(), OneAtMissed13(), TwoAtStart12()], {Packet(1, 0, 12, Request(System, 1)), Packet(1, 2, 12, Request(System, 1))}, 13) }
  function Missed14(): Conf { Conf([ZeroAtStart8(), OneAtMissed13(), TwoAtLost14()], {Packet(1, 0, 12, Request(System, 1)), Packet(1, 2, 12, Request(System, 1)), Packet(2, 0, 13, Request(System, 1)), Packet(2, 1, 13, Request(System, 1))}, 14) }
  function Missed15(): Conf { Conf([ZeroAtStart8(), OneAtMissed13(), TwoAtMissed15()], {Packet(1, 0, 12, Request(System, 1)), Packet(1, 2, 12, Request(System, 1)), Packet(2, 0, 13, Request(System, 1)), Packet(2, 1, 13, Request(System, 1)), Packet(2, 0, 14, Request(M, 1)), Packet(2, 1, 14, Request(M, 1))}, 15) }
  function Missed16(): Conf { Conf([ZeroAtStart8(), OneAtLost18(), TwoAtMissed15()], {Packet(1, 0, 12, Request(System, 1)), Packet(1, 2, 12, Request(System, 1)), Packet(2, 0, 13, Request(System, 1)), Packet(2, 0, 14, Request(M, 1)), Packet(2, 1, 14, Request(M, 1))}, 16) }
  function Missed17(): Conf { Conf([ZeroAtStart8(), OneAtMissed17(), TwoAtMissed15()], {Packet(1, 0, 12, Request(System, 1)), Packet(1, 2, 12, Request(System, 1)), Packet(2, 0, 13, Request(System, 1)), Packet(2, 0, 14, Request(M, 1))}, 17) }
  function Missed18(): Conf { Conf([ZeroAtMissed18(), OneAtMissed17(), TwoAtMissed15()], {Packet(1, 2, 12, Request(System, 1)), Packet(2, 0, 13, Request(System, 1)), Packet(2, 0, 14, Request(M, 1)), Packet(0, 1, 17, Give(System, TokenData([0, 0, 0], [], {}, map[])))}, 18) }
  function Missed19(): Conf { Conf([ZeroAtMissed18(), OneAtMissed19(), TwoAtMissed15()], {Packet(1, 2, 12, Request(System, 1)), Packet(2, 0, 13, Request(System, 1)), Packet(2, 0, 14, Request(M, 1)), Packet(1, 2, 18, Give(System, TokenData([0, 1, 0], [], {M}, map[])))}, 19) }
  function Stuck13(): Conf { Conf([ZeroAtStart8(), OneAtMissed13(), TwoAtStart12()], {Packet(1, 0, 12, Request(System, 1)), Packet(1, 2, 12, Request(System, 1))}, 13) }
  function Stuck14(): Conf { Conf([ZeroAtStart8(), OneAtStuck14(), TwoAtStart12()], {Packet(1, 0, 12, Request(System, 1)), Packet(1, 2, 12, Request(System, 1)), Packet(1, 0, 13, Request(M, 1)), Packet(1, 2, 13, Request(M, 1))}, 14) }
  function Stuck15(): Conf { Conf([ZeroAtMissed18(), OneAtStuck14(), TwoAtStart12()], {Packet(1, 2, 12, Request(System, 1)), Packet(1, 0, 13, Request(M, 1)), Packet(1, 2, 13, Request(M, 1)), Packet(0, 1, 14, Give(System, TokenData([0, 0, 0], [], {}, map[])))}, 15) }
  function Stuck16(): Conf { Conf([ZeroAtMissed18(), OneAtStuck16(), TwoAtStart12()], {Packet(1, 2, 12, Request(System, 1)), Packet(1, 0, 13, Request(M, 1)), Packet(1, 2, 13, Request(M, 1))}, 16) }
  function Stuck17(): Conf { Conf([ZeroAtMissed18(), OneAtStuck17(), TwoAtStart12()], {Packet(1, 2, 12, Request(System, 1)), Packet(1, 0, 13, Request(M, 1)), Packet(1, 2, 13, Request(M, 1))}, 17) }
  function Stuck18(): Conf { Conf([ZeroAtStuck18(), OneAtStuck17(), TwoAtStart12()], {Packet(1, 2, 12, Request(System, 1)), Packet(1, 2, 13, Request(M, 1))}, 18) }
  function Stuck19(): Conf { Conf([ZeroAtStuck19(), OneAtStuck17(), TwoAtStart12()], {Packet(1, 2, 12, Request(System, 1)), Packet(1, 2, 13, Request(M, 1))}, 19) }
  function Stuck20(): Conf { Conf([ZeroAtStuck20(), OneAtStuck17(), TwoAtStart12()], {Packet(1, 2, 12, Request(System, 1)), Packet(1, 2, 13, Request(M, 1)), Packet(0, 1, 19, Request(M, 1)), Packet(0, 2, 19, Request(M, 1))}, 20) }
  function Stuck21(): Conf { Conf([ZeroAtStuck20(), OneAtStuck21(), TwoAtStart12()], {Packet(1, 2, 12, Request(System, 1)), Packet(1, 2, 13, Request(M, 1)), Packet(0, 2, 19, Request(M, 1)), Packet(1, 0, 20, Give(M, TokenData([0, 1, 0], [], {}, map[])))}, 21) }
  function Stuck22(): Conf { Conf([ZeroAtStuck22(), OneAtStuck21(), TwoAtStart12()], {Packet(1, 2, 12, Request(System, 1)), Packet(1, 2, 13, Request(M, 1)), Packet(0, 2, 19, Request(M, 1))}, 22) }
  function Stuck23(): Conf { Conf([ZeroAtStuck23(), OneAtStuck21(), TwoAtStart12()], {Packet(1, 2, 12, Request(System, 1)), Packet(1, 2, 13, Request(M, 1)), Packet(0, 2, 19, Request(M, 1))}, 23) }
  function Stuck24(): Conf { Conf([ZeroAtStuck23(), OneAtStuck24(), TwoAtStart12()], {Packet(1, 2, 12, Request(System, 1)), Packet(1, 2, 13, Request(M, 1)), Packet(0, 2, 19, Request(M, 1))}, 24) }
  function Stuck25(): Conf { Conf([ZeroAtStuck23(), OneAtStuck24(), TwoAtStuck25()], {Packet(1, 2, 13, Request(M, 1)), Packet(0, 2, 19, Request(M, 1))}, 25) }
  function Stuck26(): Conf { Conf([ZeroAtStuck23(), OneAtStuck24(), TwoAtStuck26()], {Packet(0, 2, 19, Request(M, 1))}, 26) }
  function Stuck27(): Conf { Conf([ZeroAtStuck23(), OneAtStuck24(), TwoAtStuck27()], {}, 27) }
  function Late12(): Conf { Conf([ZeroAtLost13(), OneAtStart10(), TwoAtLate11()], {Packet(0, 2, 1, Handshake)}, 12) }
  function Late13(): Conf { Conf([ZeroAtLost13(), OneAtMissed13(), TwoAtLate11()], {Packet(0, 2, 1, Handshake), Packet(1, 0, 12, Request(System, 1)), Packet(1, 2, 12, Request(System, 1))}, 13) }
  function Late14(): Conf { Conf([ZeroAtLate14(), OneAtMissed13(), TwoAtLate11()], {Packet(0, 2, 1, Handshake), Packet(1, 2, 12, Request(System, 1)), Packet(0, 1, 13, Give(System, TokenData([0, 0, 0], [], {M}, map[])))}, 14) }
  function Late15(): Conf { Conf([ZeroAtLate14(), OneAtLate15(), TwoAtLate11()], {Packet(0, 2, 1, Handshake), Packet(1, 2, 12, Request(System, 1))}, 15) }
  function Late16(): Conf { Conf([ZeroAtLate14(), OneAtLate16(), TwoAtLate11()], {Packet(0, 2, 1, Handshake), Packet(1, 2, 12, Request(System, 1)), Packet(1, 0, 15, Request(M, 1)), Packet(1, 2, 15, Request(M, 1))}, 16) }
  function Late17(): Conf { Conf([ZeroAtLate14(), OneAtLate16(), TwoAtLate17()], {Packet(0, 2, 1, Handshake), Packet(1, 0, 15, Request(M, 1)), Packet(1, 2, 15, Request(M, 1))}, 17) }
  function Late18(): Conf { Conf([ZeroAtLate14(), OneAtLate16(), TwoAtLate18()], {Packet(0, 2, 1, Handshake), Packet(1, 0, 15, Request(M, 1))}, 18) }
  function Late19(): Conf { Conf([ZeroAtLate14(), OneAtLate16(), TwoAtLate19()], {Packet(0, 2, 1, Handshake), Packet(1, 0, 15, Request(M, 1))}, 19) }
  function Late20(): Conf { Conf([ZeroAtLate14(), OneAtLate16(), TwoAtLate20()], {Packet(0, 2, 1, Handshake), Packet(1, 0, 15, Request(M, 1))}, 20) }
  function Late21(): Conf { Conf([ZeroAtLate14(), OneAtLate16(), TwoAtLate21()], {Packet(1, 0, 15, Request(M, 1))}, 21) }
  function Late22(): Conf { Conf([ZeroAtLate22(), OneAtLate16(), TwoAtLate21()], {Packet(0, 1, 21, Give(M, TokenData([0, 0, 0], [], {}, map[])))}, 22) }
  function Late23(): Conf { Conf([ZeroAtLate22(), OneAtLate23(), TwoAtLate21()], {}, 23) }
  function Late24(): Conf { Conf([ZeroAtLate22(), OneAtLate24(), TwoAtLate21()], {}, 24) }

  // ---------------------------------------------------------------- the events

  lemma BlankNode(id: NodeId)
    ensures NewNode(3, id) == NodeOf(id, Joining({})) && NodeOf(id, Joining({})).priv == map[]
  {
    var v := NewNode(3, id);
    assert forall t :: View(v, t) == NONE;
    NIs(v, id, false, false, 0, {}, {}, NONE, NONE);
    NBlank(id, {});
  }

  lemma InitReached(informed: bool)
    requires forall i: nat :: i < 3 ==> NewNode(3, i).priv == map[]
    ensures Reached(informed, Init(3, UNBOUND))
  {
    hide NewNode, NodeOk;
    var s := Init(3, UNBOUND);
    InitShape(3, UNBOUND);
    var ss, acts: seq<Act> := [s], [];
    assert OrderedRun(informed, ss, acts) && ss[|acts|] == s;
  }

  lemma Start(informed: bool)
    ensures Reached(informed, StateOf(Start0()))
  {
    hide NewNode, NodeOf, Reached;
    BlankNode(0);
    BlankNode(1);
    BlankNode(2);
    InitReached(informed);
    assert Init(3, UNBOUND).nodes == StateOf(Start0()).nodes;
  }

  /** The links from node i to the two others are up, in this order. */
  function Linked(c: Conf, i: NodeId, j: NodeId, k: NodeId): Conf
    requires i < |c.ls|
  {
    Conf(c.ls[i := Running(0, {}, Sys([0, 0, 0], [0, 0, 0], i == 0, false), NONE)],
         c.net + {Packet(i, j, c.clock + 1, Handshake), Packet(i, k, c.clock + 1, Handshake)}, c.clock + 2)
  }

  lemma LinksOne(informed: bool, c: Conf, i: NodeId, j: NodeId)
    requires i < 3 && j < 3 && i != j && |c.ls| == 3 && Reached(informed, StateOf(c)) && c.ls[i] == Joining({})
    ensures Reached(informed, StateOf(Conf(c.ls[i := Joining({j})], c.net, c.clock + 1)))
  {
    hide Reached, StateOf;
    assert {} + {j} == {j};
    Happens(informed, c, Connected(i, j), Conf(c.ls[i := Joining({j})], c.net, c.clock + 1), {});
  }

  lemma LinksBoth(informed: bool, c: Conf, i: NodeId, j: NodeId, k: NodeId)
    requires i < 3 && j < 3 && k < 3 && j != k && {j, k} == OthersOf(i)
    requires |c.ls| == 3 && Reached(informed, StateOf(c)) && c.ls[i] == Joining({})
    ensures Reached(informed, StateOf(Linked(c, i, j, k)))
  {
    hide Reached, StateOf;
    LinksOne(informed, c, i, j);
    assert {j} + {k} == {j, k};
    Pair(j, k, Handshake);
    Happens(informed, Conf(c.ls[i := Joining({j})], c.net, c.clock + 1), Connected(i, k), Linked(c, i, j, k),
            {Packet(i, j, c.clock + 1, Handshake), Packet(i, k, c.clock + 1, Handshake)});
  }

  /** A handshake has been received. */
  function Shaken(c: Conf, p: Packet): Conf
    requires p.dst < |c.ls| && c.ls[p.dst].Running?
  {
    Conf(c.ls[p.dst := c.ls[p.dst].(h := c.ls[p.dst].h + 1)], c.net - {p}, c.clock + 1)
  }

  lemma Shakes(informed: bool, c: Conf, p: Packet)
    requires |c.ls| == 3 && p.dst < 3 && p.src < 3 && p.src != p.dst && p in c.net && p.msg == Handshake && Reached(informed, StateOf(c))
    requires c.ls[p.dst].Running? && c.ls[p.dst] == Running(c.ls[p.dst].h, {}, Sys([0, 0, 0], [0, 0, 0], p.dst == 0, false), NONE) && c.ls[p.dst].h < 2
    requires forall q :: q in c.net && q.src == p.src && q.dst == p.dst ==> q == p
    ensures Reached(informed, StateOf(Shaken(c, p)))
  {
    hide Reached, StateOf;
    Happens(informed, c, Deliver(p), Shaken(c, p), {});
  }

  lemma LinksUp()
    ensures Linked(Linked(Linked(Start0(), 0, 1, 2), 1, 0, 2), 2, 0, 1) == Start6()
  {
  }

  lemma HandshakesIn()
    ensures Shaken(Shaken(Start6(), Packet(1, 0, 3, Handshake)), Packet(2, 0, 5, Handshake)) == Start8()
    ensures Shaken(Shaken(Start8(), Packet(0, 1, 1, Handshake)), Packet(2, 1, 5, Handshake)) == Start10()
    ensures Shaken(Shaken(Start10(), Packet(0, 2, 1, Handshake)), Packet(1, 2, 3, Handshake)) == Start12()
    ensures Shaken(Start10(), Packet(1, 2, 3, Handshake)) == Late11()
  {
  }

  lemma ToStart10(informed: bool)
    ensures Reached(informed, StateOf(Start10()))
  {
    hide Reached, StateOf;
    Start(informed);
    LinksBoth(informed, Start0(), 0, 1, 2);
    LinksBoth(informed, Linked(Start0(), 0, 1, 2), 1, 0, 2);
    LinksBoth(informed, Linked(Linked(Start0(), 0, 1, 2), 1, 0, 2), 2, 0, 1);
    LinksUp();
    Shakes(informed, Start6(), Packet(1, 0, 3, Handshake));
    Shakes(informed, Shaken(Start6(), Packet(1, 0, 3, Handshake)), Packet(2, 0, 5, Handshake));
    HandshakesIn();
    Shakes(informed, Start8(), Packet(0, 1, 1, Handshake));
    Shakes(informed, Shaken(Start8(), Packet(0, 1, 1, Handshake)), Packet(2, 1, 5, Handshake));
  }

  lemma ToStart12(informed: bool)
    ensures Reached(informed, StateOf(Start12()))
  {
    hide Reached, StateOf;
    ToStart10(informed);
    HandshakesIn();
    Shakes(informed, Start10(), Packet(0, 2, 1, Handshake));
    Shakes(informed, Shaken(Start10(), Packet(0, 2, 1, Handshake)), Packet(1, 2, 3, Handshake));
  }

  lemma ToLate11(informed: bool)
    ensures Reached(informed, StateOf(Late11()))
  {
    hide Reached, StateOf;
    ToStart10(informed);
    HandshakesIn();
    Shakes(informed, Start10(), Packet(1, 2, 3, Handshake));
  }

  lemma ToLost13()
    ensures Reached(false, StateOf(Lost13()))
  {
    hide Reached, StateOf, Token.Release, RequestLock, RequestUnlock, GetRequest, GetGive, GetSystem, Adopt, NewPriv, Granted;
    ToStart12(false);
    assert {} + {M} == {M};
    Happens(false, Start12(), NewMonitor(0, M, map[]), Lost13(), {});
  }

  lemma ToLost14()
    ensures Reached(false, StateOf(Lost14()))
  {
    hide Reached, StateOf, Token.Release, RequestLock, RequestUnlock, GetRequest, GetGive, GetSystem, Adopt, NewPriv, Granted;
    ToLost13();
    Pair(0, 1, Request(System, 1));
    assert [0, 0, 0][2 := 1] == [0, 0, 1];
    Happens(false, Lost13(), NewMonitor(2, M, map[]), Lost14(), {Packet(2, 0, 13, Request(System, 1)), Packet(2, 1, 13, Request(System, 1))});
  }

  lemma ToLost15()
    ensures Reached(false, StateOf(Lost15()))
  {
    hide Reached, StateOf, Token.Release, AskFor, RequestLock, RequestUnlock, GetGive, GetSystem, Adopt, Granted;
    ToLost14();
    assert [0, 0, 0][2 := 1] == [0, 0, 1];
    Happens(false, Lost14(), Deliver(Packet(2, 0, 13, Request(System, 1))), Lost15(), {Packet(0, 2, 14, Give(System, TokenData([0, 0, 0], [], {M}, map[])))});
  }

  lemma ToLost16()
    ensures Reached(false, StateOf(Lost16()))
  {
    hide Reached, StateOf, Token.Release, AskFor, RequestLock, RequestUnlock, GetGive, GetSystem, Adopt, Granted;
    ToLost15();
    assert [0, 0, 0][2 := 1] == [0, 0, 1];
    Happens(false, Lost15(), Deliver(Packet(2, 1, 13, Request(System, 1))), Lost16(), {});
  }

  lemma ToLost17()
    ensures Reached(false, StateOf(Lost17()))
  {
    hide Reached, StateOf, Token.Release, AskFor, RequestLock, RequestUnlock, GetRequest, GetGive, NewPriv;
    ToLost16();
    assert TokenData([0, 0, 0], [], {M}, map[]).monitors + (if Open(Mon([0, 0, 0], [0, 0, 0], false, false, false, false, false)) then {M} else {}) == {M};
    ReleaseAlone(Taken(Ctx3(2), Sys([0, 0, 0], [0, 0, 1], false, true), TokenData([0, 0, 0], [], {M}, map[])).priv.value, 2);
    assert [0, 0, 0][2 := 1] == [0, 0, 1];
    Happens(false, Lost16(), Deliver(Packet(0, 2, 14, Give(System, TokenData([0, 0, 0], [], {M}, map[])))), Lost17(), {});
  }

  lemma ToLost18()
    ensures Reached(false, StateOf(Lost18()))
  {
    hide Reached, StateOf, Token.Release, RequestLock, RequestUnlock, GetRequest, GetGive, GetSystem, Adopt, NewPriv, Granted;
    ToLost17();
    Pair(0, 2, Request(System, 1));
    assert [0, 0, 1][1 := 1] == [0, 1, 1];
    Happens(false, Lost17(), NewMonitor(1, M, map[]), Lost18(), {Packet(1, 0, 17, Request(System, 1)), Packet(1, 2, 17, Request(System, 1))});
  }

  lemma ToLost19()
    ensures Reached(false, StateOf(Lost19()))
  {
    hide Reached, StateOf, Token.Release, RequestUnlock, GetRequest, GetGive, GetSystem, Adopt, NewPriv, Granted;
    ToLost18();
    Pair(0, 2, Request(M, 1));
    assert [0, 0, 0][1 := 1] == [0, 1, 0];
    Happens(false, Lost18(), LockAt(1, M), Lost19(), {Packet(1, 0, 18, Request(M, 1)), Packet(1, 2, 18, Request(M, 1))});
  }

  lemma ToLost20()
    ensures Reached(false, StateOf(Lost20()))
  {
    hide Reached, StateOf, Token.Release, AskFor, RequestLock, RequestUnlock, GetGive, GetSystem, Adopt, Granted;
    ToLost19();
    assert [0, 0, 1][1 := 1] == [0, 1, 1];
    Happens(false, Lost19(), Deliver(Packet(1, 0, 17, Request(System, 1))), Lost20(), {});
  }

  lemma ToLost21()
    ensures Reached(false, StateOf(Lost21()))
  {
    hide Reached, StateOf, Token.Release, AskFor, RequestLock, RequestUnlock, GetGive, GetSystem, Adopt, Granted;
    ToLost20();
    assert [0, 0, 0][1 := 1] == [0, 1, 0];
    Happens(false, Lost20(), Deliver(Packet(1, 0, 18, Request(M, 1))), Lost21(), {Packet(0, 1, 20, Give(M, TokenData([0, 0, 0], [], {}, map[])))});
  }

  lemma ToLost22()
    ensures Reached(false, StateOf(Lost22()))
  {
    hide Reached, StateOf, Token.Release, AskFor, RequestLock, RequestUnlock, GetRequest, GetSystem, Adopt, NewPriv;
    ToLost21();
    Happens(false, Lost21(), Deliver(Packet(0, 1, 20, Give(M, TokenData([0, 0, 0], [], {}, map[])))), Lost22(), {});
  }

  lemma ToLost23()
    ensures Reached(false, StateOf(Lost23()))
  {
    hide Reached, StateOf, Token.Release, AskFor, RequestLock, GetRequest, GetGive, GetSystem, Adopt, NewPriv, Granted;
    ToLost22();
    ReleaseAlone(Mon([0, 0, 0], [0, 1, 0], false, true, true, false, false).priv.value.(locked := false), 1);
    assert [0, 0, 0][1 := 1] == [0, 1, 0];
    Happens(false, Lost22(), UnlockAt(1, M), Lost23(), {});
  }

  lemma ToLost24()
    ensures Reached(false, StateOf(Lost24()))
  {
    hide Reached, StateOf, Token.Release, AskFor, RequestLock, RequestUnlock, GetGive, GetSystem, Adopt, Granted;
    ToLost23();
    assert [0, 0, 1][1 := 1] == [0, 1, 1];
    Happens(false, Lost23(), Deliver(Packet(1, 2, 17, Request(System, 1))), Lost24(), {Packet(2, 1, 23, Give(System, TokenData([0, 0, 1], [], {M}, map[])))});
  }

  lemma ToLost25()
    ensures Reached(false, StateOf(Lost25()))
  {
    hide Reached, StateOf, Token.Release, AskFor, RequestLock, RequestUnlock, GetRequest, GetGive, NewPriv;
    ToLost24();
    assert TokenData([0, 0, 1], [], {M}, map[]).monitors + (if Open(Mon([0, 1, 0], [0, 1, 0], false, true, false, false, false)) then {M} else {}) == {M};
    ReleaseAlone(Taken(Ctx3(1), Sys([0, 0, 0], [0, 1, 1], false, true), TokenData([0, 0, 1], [], {M}, map[])).priv.value, 1);
    assert [0, 0, 1][1 := 1] == [0, 1, 1];
    Happens(false, Lost24(), Deliver(Packet(2, 1, 23, Give(System, TokenData([0, 0, 1], [], {M}, map[])))), Lost25(), {});
  }

  lemma ToMissed13()
    ensures Reached(false, StateOf(Missed13()))
  {
    hide Reached, StateOf, Token.Release, RequestLock, RequestUnlock, GetRequest, GetGive, GetSystem, Adopt, NewPriv, Granted;
    ToStart12(false);
    Pair(0, 2, Request(System, 1));
    assert [0, 0, 0][1 := 1] == [0, 1, 0];
    Happens(false, Start12(), NewMonitor(1, M, map[]), Missed13(), {Packet(1, 0, 12, Request(System, 1)), Packet(1, 2, 12, Request(System, 1))});
  }

  lemma ToMissed14()
    ensures Reached(false, StateOf(Missed14()))
  {
    hide Reached, StateOf, Token.Release, RequestLock, RequestUnlock, GetRequest, GetGive, GetSystem, Adopt, NewPriv, Granted;
    ToMissed13();
    Pair(0, 1, Request(System, 1));
    assert [0, 0, 0][2 := 1] == [0, 0, 1];
    Happens(false, Missed13(), NewMonitor(2, M, map[]), Missed14(), {Packet(2, 0, 13, Request(System, 1)), Packet(2, 1, 13, Request(System, 1))});
  }

  lemma ToMissed15()
    ensures Reached(false, StateOf(Missed15()))
  {
    hide Reached, StateOf, Token.Release, RequestUnlock, GetRequest, GetGive, GetSystem, Adopt, NewPriv, Granted;
    ToMissed14();
    Pair(0, 1, Request(M, 1));
    assert [0, 0, 0][2 := 1] == [0, 0, 1];
    Happens(false, Missed14(), LockAt(2, M), Missed15(), {Packet(2, 0, 14, Request(M, 1)), Packet(2, 1, 14, Request(M, 1))});
  }

  lemma ToMissed16()
    ensures Reached(false, StateOf(Missed16()))
  {
    hide Reached, StateOf, Token.Release, AskFor, RequestLock, RequestUnlock, GetGive, GetSystem, Adopt, Granted;
    ToMissed15();
    assert [0, 1, 0][2 := 1] == [0, 1, 1];
    Happens(false, Missed15(), Deliver(Packet(2, 1, 13, Request(System, 1))), Missed16(), {});
  }

  lemma ToMissed17()
    ensures Reached(false, StateOf(Missed17()))
  {
    hide Reached, StateOf, Token.Release, AskFor, RequestLock, RequestUnlock, GetGive, GetSystem, Adopt, Granted;
    ToMissed16();
    assert [0, 0, 0][2 := 1] == [0, 0, 1];
    Happens(false, Missed16(), Deliver(Packet(2, 1, 14, Request(M, 1))), Missed17(), {});
  }

  lemma ToMissed18()
    ensures Reached(false, StateOf(Missed18()))
  {
    hide Reached, StateOf, Token.Release, AskFor, RequestLock, RequestUnlock, GetGive, GetSystem, Adopt, Granted;
    ToMissed17();
    assert [0, 0, 0][1 := 1] == [0, 1, 0];
    Happens(false, Missed17(), Deliver(Packet(1, 0, 12, Request(System, 1))), Missed18(), {Packet(0, 1, 17, Give(System, TokenData([0, 0, 0], [], {}, map[])))});
  }

  lemma ToMissed19()
    ensures Reached(false, StateOf(Missed19()))
  {
    hide Reached, StateOf, Token.Release, AskFor, RequestLock, RequestUnlock, GetRequest, GetGive, NewPriv;
    ToMissed18();
    assert TokenData([0, 0, 0], [], {}, map[]).monitors + (if Open(Mon([0, 0, 0], [0, 0, 1], false, false, false, false, false)) then {M} else {}) == {M};
    ReleaseOne(Taken(Ctx3(1), Sys([0, 0, 0], [0, 1, 1], false, true), TokenData([0, 0, 0], [], {}, map[])).priv.value, 1, 2);
    assert [0, 0, 0][1 := 1] == [0, 1, 0];
    Happens(false, Missed18(), Deliver(Packet(0, 1, 17, Give(System, TokenData([0, 0, 0], [], {}, map[])))), Missed19(), {Packet(1, 2, 18, Give(System, TokenData([0, 1, 0], [], {M}, map[])))});
  }

  lemma ToStuck13()
    ensures Reached(false, StateOf(Stuck13()))
  {
    hide Reached, StateOf, Token.Release, RequestLock, RequestUnlock, GetRequest, GetGive, GetSystem, Adopt, NewPriv, Granted;
    ToStart12(false);
    Pair(0, 2, Request(System, 1));
    assert [0, 0, 0][1 := 1] == [0, 1, 0];
    Happens(false, Start12(), NewMonitor(1, M, map[]), Stuck13(), {Packet(1, 0, 12, Request(System, 1)), Packet(1, 2, 12, Request(System, 1))});
  }

  lemma ToStuck14()
    ensures Reached(false, StateOf(Stuck14()))
  {
    hide Reached, StateOf, Token.Release, RequestUnlock, GetRequest, GetGive, GetSystem, Adopt, NewPriv, Granted;
    ToStuck13();
    Pair(0, 2, Request(M, 1));
    assert [0, 0, 0][1 := 1] == [0, 1, 0];
    Happens(false, Stuck13(), LockAt(1, M), Stuck14(), {Packet(1, 0, 13, Request(M, 1)), Packet(1, 2, 13, Request(M, 1))});
  }

  lemma ToStuck15()
    ensures Reached(false, StateOf(Stuck15()))
  {
    hide Reached, StateOf, Token.Release, AskFor, RequestLock, RequestUnlock, GetGive, GetSystem, Adopt, Granted;
    ToStuck14();
    assert [0, 0, 0][1 := 1] == [0, 1, 0];
    Happens(false, Stuck14(), Deliver(Packet(1, 0, 12, Request(System, 1))), Stuck15(), {Packet(0, 1, 14, Give(System, TokenData([0, 0, 0], [], {}, map[])))});
  }

  /** Node 1 gets the system token: it creates M and is inside. */
  lemma EntersAsItComes()
    ensures Plays(1, OneAtStuck14(), Deliver(Packet(0, 1, 14, Give(System, TokenData([0, 0, 0], [], {}, map[])))))
    ensures Play(1, OneAtStuck14(), Deliver(Packet(0, 1, 14, Give(System, TokenData([0, 0, 0], [], {}, map[]))))) == (OneAtStuck16(), {})
  {
    hide Token.Release, AskFor, RequestLock, RequestUnlock, GetRequest, GetGive, NewPriv;
    assert TokenData([0, 0, 0], [], {}, map[]).monitors + (if Open(Mon([0, 0, 0], [0, 1, 0], false, false, false, true, true)) then {M} else {}) == {M};
    ReleaseAlone(Taken(Ctx3(1), Sys([0, 0, 0], [0, 1, 0], false, true), TokenData([0, 0, 0], [], {}, map[])).priv.value, 1);
    assert [0, 0, 0][1 := 1] == [0, 1, 0];
  }

  lemma ToStuck16()
    ensures Reached(false, StateOf(Stuck16()))
  {
    hide Reached, StateOf, Token.Release, AskFor, RequestLock, RequestUnlock, GetRequest, GetGive, NewPriv, GetSystem, Adopt, Granted, Play;
    ToStuck15();
    EntersAsItComes();
    Happens(false, Stuck15(), Deliver(Packet(0, 1, 14, Give(System, TokenData([0, 0, 0], [], {}, map[])))), Stuck16(), {});
  }

  lemma ToStuck17()
    ensures Reached(false, StateOf(Stuck17()))
  {
    hide Reached, StateOf, Token.Release, AskFor, RequestLock, GetRequest, GetGive, GetSystem, Adopt, NewPriv, Granted;
    ToStuck16();
    ReleaseAlone(Mon([0, 0, 0], [0, 1, 0], true, true, true, true, false).priv.value.(locked := false), 1);
    assert [0, 0, 0][1 := 1] == [0, 1, 0];
    Happens(false, Stuck16(), UnlockAt(1, M), Stuck17(), {});
  }

  lemma ToStuck18()
    ensures Reached(false, StateOf(Stuck18()))
  {
    hide Reached, StateOf, Token.Release, AskFor, RequestLock, RequestUnlock, GetGive, GetSystem, Adopt, Granted;
    ToStuck17();
    Zeros(true, false);
    assert [0, 0, 0][1 := 1] == [0, 1, 0];
    Happens(false, Stuck17(), Deliver(Packet(1, 0, 13, Request(M, 1))), Stuck18(), {});
  }

  lemma ToStuck19()
    ensures Reached(false, StateOf(Stuck19()))
  {
    hide Reached, StateOf, Token.Release, RequestLock, RequestUnlock, GetRequest, GetGive, GetSystem, Adopt, NewPriv, Granted;
    ToStuck18();
    Happens(false, Stuck18(), NewMonitor(0, M, map[]), Stuck19(), {});
  }

  lemma ToStuck20()
    ensures Reached(false, StateOf(Stuck20()))
  {
    hide Reached, StateOf, Token.Release, RequestUnlock, GetRequest, GetGive, GetSystem, Adopt, NewPriv, Granted;
    ToStuck19();
    Pair(1, 2, Request(M, 1));
    assert [0, 1, 0][0 := 1] == [1, 1, 0];
    Happens(false, Stuck19(), LockAt(0, M), Stuck20(), {Packet(0, 1, 19, Request(M, 1)), Packet(0, 2, 19, Request(M, 1))});
  }

  lemma ToStuck21()
    ensures Reached(false, StateOf(Stuck21()))
  {
    hide Reached, StateOf, Token.Release, AskFor, RequestLock, RequestUnlock, GetGive, GetSystem, Adopt, Granted;
    ToStuck20();
    assert [0, 1, 0][0 := 1] == [1, 1, 0];
    Happens(false, Stuck20(), Deliver(Packet(0, 1, 19, Request(M, 1))), Stuck21(), {Packet(1, 0, 20, Give(M, TokenData([0, 1, 0], [], {}, map[])))});
  }

  lemma ToStuck22()
    ensures Reached(false, StateOf(Stuck22()))
  {
    hide Reached, StateOf, Token.Release, AskFor, RequestLock, RequestUnlock, GetRequest, GetSystem, Adopt, NewPriv;
    ToStuck21();
    assert [0, 0, 0][1 := 1] == [0, 1, 0];
    Happens(false, Stuck21(), Deliver(Packet(1, 0, 20, Give(M, TokenData([0, 1, 0], [], {}, map[])))), Stuck22(), {});
  }

  lemma ToStuck23()
    ensures Reached(false, StateOf(Stuck23()))
  {
    hide Reached, StateOf, Token.Release, AskFor, RequestLock, GetRequest, GetGive, GetSystem, Adopt, NewPriv, Granted;
    ToStuck22();
    ReleaseAlone(Mon([0, 1, 0], [1, 1, 0], true, true, true, false, false).priv.value.(locked := false), 0);
    assert [0, 1, 0][0 := 1] == [1, 1, 0];
    Happens(false, Stuck22(), UnlockAt(0, M), Stuck23(), {});
  }

  lemma ToStuck24()
    ensures Reached(false, StateOf(Stuck24()))
  {
    hide Reached, StateOf, Token.Release, RequestUnlock, GetRequest, GetGive, GetSystem, Adopt, NewPriv, Granted;
    ToStuck23();
    Happens(false, Stuck23(), LockAt(1, M), Stuck24(), {});
  }

  lemma ToStuck25()
    ensures Reached(false, StateOf(Stuck25()))
  {
    hide Reached, StateOf, Token.Release, AskFor, RequestLock, RequestUnlock, GetGive, GetSystem, Adopt, Granted;
    ToStuck24();
    assert [0, 0, 0][1 := 1] == [0, 1, 0];
    Happens(false, Stuck24(), Deliver(Packet(1, 2, 12, Request(System, 1))), Stuck25(), {});
  }

  lemma ToStuck26()
    ensures Reached(false, StateOf(Stuck26()))
  {
    hide Reached, StateOf, Token.Release, AskFor, RequestLock, RequestUnlock, GetGive, GetSystem, Adopt, Granted;
    ToStuck25();
    Zeros(true, false);
    assert [0, 0, 0][1 := 1] == [0, 1, 0];
    Happens(false, Stuck25(), Deliver(Packet(1, 2, 13, Request(M, 1))), Stuck26(), {});
  }

  lemma ToStuck27()
    ensures Reached(false, StateOf(Stuck27()))
  {
    hide Reached, StateOf, Token.Release, AskFor, RequestLock, RequestUnlock, GetGive, GetSystem, Adopt, Granted;
    ToStuck26();
    assert [0, 1, 0][0 := 1] == [1, 1, 0];
    Happens(false, Stuck26(), Deliver(Packet(0, 2, 19, Request(M, 1))), Stuck27(), {});
  }

  lemma ToLate12()
    ensures Reached(true, StateOf(Late12()))
  {
    hide Reached, StateOf, Token.Release, RequestLock, RequestUnlock, GetRequest, GetGive, GetSystem, Adopt, NewPriv, Granted;
    ToLate11(true);
    assert {} + {M} == {M};
    Happens(true, Late11(), NewMonitor(0, M, map[]), Late12(), {});
  }

  lemma ToLate13()
    ensures Reached(true, StateOf(Late13()))
  {
    hide Reached, StateOf, Token.Release, RequestLock, RequestUnlock, GetRequest, GetGive, GetSystem, Adopt, NewPriv, Granted;
    ToLate12();
    Pair(0, 2, Request(System, 1));
    assert [0, 0, 0][1 := 1] == [0, 1, 0];
    Happens(true, Late12(), NewMonitor(1, M, map[]), Late13(), {Packet(1, 0, 12, Request(System, 1)), Packet(1, 2, 12, Request(System, 1))});
  }

  lemma ToLate14()
    ensures Reached(true, StateOf(Late14()))
  {
    hide Reached, StateOf, Token.Release, AskFor, RequestLock, RequestUnlock, GetGive, GetSystem, Adopt, Granted;
    ToLate13();
    assert [0, 0, 0][1 := 1] == [0, 1, 0];
    Happens(true, Late13(), Deliver(Packet(1, 0, 12, Request(System, 1))), Late14(), {Packet(0, 1, 13, Give(System, TokenData([0, 0, 0], [], {M}, map[])))});
  }

  lemma ToLate15()
    ensures Reached(true, StateOf(Late15()))
  {
    hide Reached, StateOf, Token.Release, AskFor, RequestLock, RequestUnlock, GetRequest, GetGive, NewPriv;
    ToLate14();
    assert TokenData([0, 0, 0], [], {M}, map[]).monitors + (if Open(Mon([0, 0, 0], [0, 0, 0], false, false, false, false, false)) then {M} else {}) == {M};
    ReleaseAlone(Taken(Ctx3(1), Sys([0, 0, 0], [0, 1, 0], false, true), TokenData([0, 0, 0], [], {M}, map[])).priv.value, 1);
    assert [0, 0, 0][1 := 1] == [0, 1, 0];
    Happens(true, Late14(), Deliver(Packet(0, 1, 13, Give(System, TokenData([0, 0, 0], [], {M}, map[])))), Late15(), {});
  }

  lemma ToLate16()
    ensures Reached(true, StateOf(Late16()))
  {
    hide Reached, StateOf, Token.Release, RequestUnlock, GetRequest, GetGive, GetSystem, Adopt, NewPriv, Granted;
    ToLate15();
    Pair(0, 2, Request(M, 1));
    assert [0, 0, 0][1 := 1] == [0, 1, 0];
    Happens(true, Late15(), LockAt(1, M), Late16(), {Packet(1, 0, 15, Request(M, 1)), Packet(1, 2, 15, Request(M, 1))});
  }

  lemma ToLate17()
    ensures Reached(true, StateOf(Late17()))
  {
    hide Reached, StateOf, Token.Release, AskFor, RequestLock, RequestUnlock, GetGive, GetSystem, Adopt, Granted;
    ToLate16();
    assert [0, 0, 0][1 := 1] == [0, 1, 0];
    Happens(true, Late16(), Deliver(Packet(1, 2, 12, Request(System, 1))), Late17(), {});
  }

  lemma ToLate18()
    ensures Reached(true, StateOf(Late18()))
  {
    hide Reached, StateOf, Token.Release, AskFor, RequestLock, RequestUnlock, GetGive, GetSystem, Adopt, Granted;
    ToLate17();
    Zeros(true, false);
    assert [0, 0, 0][1 := 1] == [0, 1, 0];
    Happens(true, Late17(), Deliver(Packet(1, 2, 15, Request(M, 1))), Late18(), {});
  }

  lemma ToLate19()
    ensures Reached(true, StateOf(Late19()))
  {
    hide Reached, StateOf, Token.Release, RequestLock, RequestUnlock, GetRequest, GetGive, GetSystem, Adopt, NewPriv, Granted;
    ToLate18();
    Happens(true, Late18(), NewMonitor(2, M, map[]), Late19(), {});
  }

  lemma ToLate20()
    ensures Reached(true, StateOf(Late20()))
  {
    hide Reached, StateOf, Token.Release, RequestUnlock, GetRequest, GetGive, GetSystem, Adopt, NewPriv, Granted;
    ToLate19();
    Happens(true, Late19(), LockAt(2, M), Late20(), {});
  }

  lemma ToLate21()
    ensures Reached(true, StateOf(Late21()))
  {
    hide Reached, StateOf, Token.Release, AskFor, RequestLock, RequestUnlock, GetRequest, GetSystem, Adopt, NewPriv;
    ToLate20();
    Happens(true, Late20(), Deliver(Packet(0, 2, 1, Handshake)), Late21(), {});
  }

  lemma ToLate22()
    ensures Reached(true, StateOf(Late22()))
  {
    hide Reached, StateOf, Token.Release, AskFor, RequestLock, RequestUnlock, GetGive, GetSystem, Adopt, Granted;
    ToLate21();
    assert [0, 0, 0][1 := 1] == [0, 1, 0];
    Happens(true, Late21(), Deliver(Packet(1, 0, 15, Request(M, 1))), Late22(), {Packet(0, 1, 21, Give(M, TokenData([0, 0, 0], [], {}, map[])))});
  }

  lemma ToLate23()
    ensures Reached(true, StateOf(Late23()))
  {
    hide Reached, StateOf, Token.Release, AskFor, RequestLock, RequestUnlock, GetRequest, GetSystem, Adopt, NewPriv;
    ToLate22();
    Happens(true, Late22(), Deliver(Packet(0, 1, 21, Give(M, TokenData([0, 0, 0], [], {}, map[])))), Late23(), {});
  }

  lemma ToLate24()
    ensures Reached(true, StateOf(Late24()))
  {
    hide Reached, StateOf, Token.Release, AskFor, RequestLock, GetRequest, GetGive, GetSystem, Adopt, NewPriv, Granted;
    ToLate23();
    ReleaseAlone(Mon([0, 0, 0], [0, 1, 0], true, true, true, false, false).priv.value.(locked := false), 1);
    assert [0, 0, 0][1 := 1] == [0, 1, 0];
    Happens(true, Late23(), UnlockAt(1, M), Late24(), {});
  }

  // ---------------------------------------------------------------- the results

  /** A reachable state, on channels that keep the order, in which monitor M exists and its token is nowhere. */
  lemma TokenLost()
    ensures var s := StateOf(Lost25());
      Reached(false, s) && Registered(s, M) && Owners(s, M) == {} && Gives(s, M) == {}
  {
    hide Reached, View, PutMap, PutSet;
    ToLost25();
    var s := StateOf(Lost25());
    assert ListedAt(s, 0, M);
    NView(0, true, true, 2, OthersOf(0), {M}, Sys([0, 0, 0], [0, 1, 1], false, false), Mon([0, 0, 0], [0, 1, 0], true, false, false, false, false), M);
    NView(1, true, true, 2, OthersOf(1), {M}, Sys([0, 1, 1], [0, 1, 1], true, false), Mon([0, 1, 0], [0, 1, 0], true, false, false, false, false), M);
    NView(2, true, true, 2, OthersOf(2), {M}, Sys([0, 0, 1], [0, 1, 1], false, false), Mon([0, 0, 0], [0, 0, 0], true, false, false, false, false), M);
    assert forall i: nat :: i < 3 ==> !Owner(View(s.nodes[i], M));
  }

  lemma ReachedLoses(s: State, t: TokenId)
    requires Reached(false, s) && t.Monitor?
    ensures Shape(s) && (NoRequestLost(s, t) <==> IdleServed(s, t))
  {
    hide Run, NoRequestLost, IdleServed;
    var ss, acts :| OrderedRun(false, ss, acts) && ss[|acts|] == s;
    LostExactly(false, ss, acts, |acts|, t);
  }

  /** A reachable state, on channels that keep the order, in which a request for M has been lost. */
  lemma RequestLost()
    ensures var s := StateOf(Missed19());
      Reached(false, s) && Shape(s) && !NoRequestLost(s, M)
  {
    hide Reached, Shape, NoRequestLost, View, PutMap, PutSet;
    ToMissed19();
    var s := StateOf(Missed19());
    NView(1, true, true, 2, OthersOf(1), {M}, Sys([0, 1, 0], [0, 1, 1], false, false), Mon([0, 0, 0], [0, 0, 1], true, true, false, false, false), M);
    assert View(s.nodes[1], M).priv.value.rn[2] > View(s.nodes[1], M).priv.value.ln[2];
    assert !AttentiveAt(View(s.nodes[1], M));
    ReachedLoses(s, M);
  }

  /** A reachable state, on channels that keep the order, in which node 1 waits to enter M, nothing is on its way, nobody is
      inside, and node 1 has M in m_pendingRequests for a request that was served before. */
  lemma LeftWaiting()
    ensures var s := StateOf(Stuck27());
      Reached(false, s) && Shape(s) && s.net == {} && (forall i: nat :: i < 3 ==> !Locked(s, i, M))
      && Stranded(s, M, 1) && !Has(s, M, 1) && M in s.nodes[1].pendingGrants
  {
    hide Reached, Shape, Stranded, Started;
    ToStuck27();
    var s := StateOf(Stuck27());
    ReachedShape(false, s);
    ZeroStuck();
    OneStuck();
    TwoStuck();
    assert s.nodes[0] == NodeOf(0, ZeroAtStuck23()) && s.nodes[1] == NodeOf(1, OneAtStuck24()) && s.nodes[2] == NodeOf(2, TwoAtStuck27());
    assert ListedAt(s, 1, M);
    NowhereElse(s);
  }

  lemma ZeroStuck()
    ensures var v := NodeOf(0, ZeroAtStuck23()); M in v.priv && v.priv[M].ln == [1, 1, 0] && !v.priv[M].locked
  {
    hide View, PutMap, PutSet;
    NView(0, true, true, 2, OthersOf(0), {}, Sys([0, 0, 0], [0, 1, 0], false, false), Mon([1, 1, 0], [1, 1, 0], true, true, false, false, false), M);
    ViewIs(NodeOf(0, ZeroAtStuck23()), M);
  }

  lemma OneStuck()
    ensures var v := NodeOf(1, OneAtStuck24());
      M in v.priv && v.priv[M].rn == [1, 1, 0] && !v.priv[M].locked && !v.priv[M].owned && M in v.pendingRequests && M in v.pendingGrants && Lists(v, M)
  {
    hide View, PutMap, PutSet;
    NView(1, true, true, 2, OthersOf(1), {M}, Sys([0, 1, 0], [0, 1, 0], true, false), Mon([0, 1, 0], [1, 1, 0], true, false, false, true, true), M);
    NView(1, true, true, 2, OthersOf(1), {M}, Sys([0, 1, 0], [0, 1, 0], true, false), Mon([0, 1, 0], [1, 1, 0], true, false, false, true, true), System);
    ViewIs(NodeOf(1, OneAtStuck24()), M);
    ViewIs(NodeOf(1, OneAtStuck24()), System);
  }

  lemma TwoStuck()
    ensures var v := NodeOf(2, TwoAtStuck27()); M in v.priv && !v.priv[M].locked && !v.priv[M].owned
  {
    hide View, PutMap, PutSet;
    NView(2, true, true, 2, OthersOf(2), {}, Sys([0, 0, 0], [0, 1, 0], false, false), Noted([1, 1, 0]), M);
    ViewIs(NodeOf(2, TwoAtStuck27()), M);
  }

  lemma ViewIs(v: Node, t: TokenId)
    ensures View(v, t).priv == (if t in v.priv then Some(v.priv[t]) else None)
    ensures (View(v, t).pendReq <==> t in v.pendingRequests) && (View(v, t).pendGrant <==> t in v.pendingGrants)
  {
  }

  /** Node 0 has the token, and node 1 is not the one that will be served. */
  lemma NowhereElse(s: State)
    requires Shape(s) && s.n == |s.nodes| == 3 && s.net == {} && Registered(s, M)
    requires M in s.nodes[0].priv && s.nodes[0].priv[M].ln == [1, 1, 0]
    requires M in s.nodes[1].priv && s.nodes[1].priv[M].rn == [1, 1, 0] && M in s.nodes[1].pendingRequests
    requires M in s.nodes[2].priv && !s.nodes[2].priv[M].locked && !s.nodes[2].priv[M].owned
    ensures Stranded(s, M, 1)
  {
    hide Shape, Registered;
    assert Num(s, 1, 1, M) == 1;
    assert !Holds(View(s.nodes[2], M));
  }

  /** A reachable state, under H and on channels that keep the order, in which all nodes are up, nothing is on its way, nobody
      is inside, and node 2 waits to enter M, whose token is elsewhere and which it has not asked for. */
  lemma NeverGranted()
    ensures var s := StateOf(Late24());
      Reached(true, s) && Shape(s) && s.net == {} && Minted(s, M) && (forall i: nat :: i < 3 ==> s.nodes[i].startedCluster && !Locked(s, i, M))
      && M in s.nodes[2].pendingGrants && !Has(s, M, 2) && M !in s.nodes[2].pendingRequests && !WaitsAttended(s, M)
  {
    hide Reached, Shape, Started;
    ToLate24();
    var s := StateOf(Late24());
    ReachedShape(true, s);
    ZeroLate();
    OneLate();
    TwoLate();
    assert s.nodes[0] == NodeOf(0, ZeroAtLate22()) && s.nodes[1] == NodeOf(1, OneAtLate24()) && s.nodes[2] == NodeOf(2, TwoAtLate21());
    assert ListedAt(s, 1, M);
    assert !NodeAttends(s.nodes[2], M);
  }

  lemma ZeroLate()
    ensures var v := NodeOf(0, ZeroAtLate22()); v.startedCluster && M in v.priv && !v.priv[M].locked
  {
    hide View, PutMap, PutSet;
    NView(0, true, true, 2, OthersOf(0), {M}, Sys([0, 0, 0], [0, 1, 0], false, false), Mon([0, 0, 0], [0, 1, 0], true, false, false, false, false), M);
    ViewIs(NodeOf(0, ZeroAtLate22()), M);
  }

  lemma OneLate()
    ensures var v := NodeOf(1, OneAtLate24()); v.startedCluster && M in v.priv && !v.priv[M].locked && Lists(v, M)
  {
    hide View, PutMap, PutSet;
    NView(1, true, true, 2, OthersOf(1), {M}, Sys([0, 1, 0], [0, 1, 0], true, false), Mon([0, 1, 0], [0, 1, 0], true, true, false, false, false), M);
    NView(1, true, true, 2, OthersOf(1), {M}, Sys([0, 1, 0], [0, 1, 0], true, false), Mon([0, 1, 0], [0, 1, 0], true, true, false, false, false), System);
    ViewIs(NodeOf(1, OneAtLate24()), M);
    ViewIs(NodeOf(1, OneAtLate24()), System);
  }

  lemma TwoLate()
    ensures var v := NodeOf(2, TwoAtLate21());
      && v.startedCluster && M in v.priv && v.priv[M].created && !v.priv[M].locked && !v.priv[M].owned
      && M in v.pendingGrants && M !in v.pendingRequests
  {
    hide View, PutMap, PutSet;
    NView(2, true, true, 2, OthersOf(2), {}, Sys([0, 0, 0], [0, 1, 0], false, false), Mon([0, 0, 0], [0, 1, 0], true, false, false, false, true), M);
    ViewIs(NodeOf(2, TwoAtLate21()), M);
  }
}
