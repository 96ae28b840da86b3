// IANA interface types (the iana-if-type identities of RFC 7224) and their
// string codec. The enumeration, the switch of toString and the lookup table
// of fromString are transcribed entry by entry from the header; the lemmas
// that follow the codec prove the tables inverse to each other.
module IanaIfType {

  /** The scoped enumeration: an integer type whose named values are the
      enumerators in declaration order, `Unknown` first. */
  newtype IanaIfType = x: int | 0 <= x < 299

  const Unknown: IanaIfType := 0
  const other: IanaIfType := 1
  const regular1822: IanaIfType := 2
  const hdh1822: IanaIfType := 3
  const ddnX25: IanaIfType := 4
  const rfc877x25: IanaIfType := 5
  const ethernetCsmacd: IanaIfType := 6
  const iso88023Csmacd: IanaIfType := 7
  const iso88024TokenBus: IanaIfType := 8
  const iso88025TokenRing: IanaIfType := 9
  const iso88026Man: IanaIfType := 10
  const starLan: IanaIfType := 11
  const proteon10Mbit: IanaIfType := 12
  const proteon80Mbit: IanaIfType := 13
  const hyperchannel: IanaIfType := 14
  const fddi: IanaIfType := 15
  const lapb: IanaIfType := 16
  const sdlc: IanaIfType := 17
  const ds1: IanaIfType := 18
  const e1: IanaIfType := 19
  const basicISDN: IanaIfType := 20
  const primaryISDN: IanaIfType := 21
  const propPointToPointSerial: IanaIfType := 22
  const ppp: IanaIfType := 23
  const softwareLoopback: IanaIfType := 24
  const eon: IanaIfType := 25
  const ethernet3Mbit: IanaIfType := 26
  const nsip: IanaIfType := 27
  const slip: IanaIfType := 28
  const ultra: IanaIfType := 29
  const ds3: IanaIfType := 30
  const sip: IanaIfType := 31
  const frameRelay: IanaIfType := 32
  const rs232: IanaIfType := 33
  const para: IanaIfType := 34
  const arcnet: IanaIfType := 35
  const arcnetPlus: IanaIfType := 36
  const miox25: IanaIfType := 37
  const sonet: IanaIfType := 38
  const x25ple: IanaIfType := 39
  const iso88022llc: IanaIfType := 40
  const localTalk: IanaIfType := 41
  const smdsDxi: IanaIfType := 42
  const frameRelayService: IanaIfType := 43
  const v35: IanaIfType := 44
  const hssi: IanaIfType := 45
  const hippi: IanaIfType := 46
  const modem: IanaIfType := 47
  const aal5: IanaIfType := 48
  const sonetPath: IanaIfType := 49
  const sonetVT: IanaIfType := 50
  const smdsIcip: IanaIfType := 51
  const propVirtual: IanaIfType := 52
  const propMultiplexor: IanaIfType := 53
  const ieee80212: IanaIfType := 54
  const fibreChannel: IanaIfType := 55
  const hippiInterface: IanaIfType := 56
  const frameRelayInterconnect: IanaIfType := 57
  const aflane8023: IanaIfType := 58
  const aflane8025: IanaIfType := 59
  const cctEmul: IanaIfType := 60
  const fastEther: IanaIfType := 61
  const isdn: IanaIfType := 62
  const v11: IanaIfType := 63
  const v36: IanaIfType := 64
  const g703at64k: IanaIfType := 65
  const g703at2mb: IanaIfType := 66
  const qllc: IanaIfType := 67
  const fastEtherFX: IanaIfType := 68
  const channel: IanaIfType := 69
  const ieee80211: IanaIfType := 70
  const ibm370parChan: IanaIfType := 71
  const escon: IanaIfType := 72
  const dlsw: IanaIfType := 73
  const isdns: IanaIfType := 74
  const isdnu: IanaIfType := 75
  const lapd: IanaIfType := 76
  const ipSwitch: IanaIfType := 77
  const rsrb: IanaIfType := 78
  const atmLogical: IanaIfType := 79
  const ds0: IanaIfType := 80
  const ds0Bundle: IanaIfType := 81
  const bsc: IanaIfType := 82
  const async: IanaIfType := 83
  const cnr: IanaIfType := 84
  const iso88025Dtr: IanaIfType := 85
  const eplrs: IanaIfType := 86
  const arap: IanaIfType := 87
  const propCnls: IanaIfType := 88
  const hostPad: IanaIfType := 89
  const termPad: IanaIfType := 90
  const frameRelayMPI: IanaIfType := 91
  const x213: IanaIfType := 92
  const adsl: IanaIfType := 93
  const radsl: IanaIfType := 94
  const sdsl: IanaIfType := 95
  const vdsl: IanaIfType := 96
  const iso88025CRFPInt: IanaIfType := 97
  const myrinet: IanaIfType := 98
  const voiceEM: IanaIfType := 99
  const voiceFXO: IanaIfType := 100
  const voiceFXS: IanaIfType := 101
  const voiceEncap: IanaIfType := 102
  const voiceOverIp: IanaIfType := 103
  const atmDxi: IanaIfType := 104
  const atmFuni: IanaIfType := 105
  const atmIma: IanaIfType := 106
  const pppMultilinkBundle: IanaIfType := 107
  const ipOverCdlc: IanaIfType := 108
  const ipOverClaw: IanaIfType := 109
  const stackToStack: IanaIfType := 110
  const virtualIpAddress: IanaIfType := 111
  const mpc: IanaIfType := 112
  const ipOverAtm: IanaIfType := 113
  const iso88025Fiber: IanaIfType := 114
  const tdlc: IanaIfType := 115
  const gigabitEthernet: IanaIfType := 116
  const hdlc: IanaIfType := 117
  const lapf: IanaIfType := 118
  const v37: IanaIfType := 119
  const x25mlp: IanaIfType := 120
  const x25huntGroup: IanaIfType := 121
  const transpHdlc: IanaIfType := 122
  const interleave: IanaIfType := 123
  const fast: IanaIfType := 124
  const ip: IanaIfType := 125
  const docsCableMaclayer: IanaIfType := 126
  const docsCableDownstream: IanaIfType := 127
  const docsCableUpstream: IanaIfType := 128
  const a12MppSwitch: IanaIfType := 129
  const tunnel: IanaIfType := 130
  const coffee: IanaIfType := 131
  const ces: IanaIfType := 132
  const atmSubInterface: IanaIfType := 133
  const l2vlan: IanaIfType := 134
  const l3ipvlan: IanaIfType := 135
  const l3ipxvlan: IanaIfType := 136
  const digitalPowerline: IanaIfType := 137
  const mediaMailOverIp: IanaIfType := 138
  const dtm: IanaIfType := 139
  const dcn: IanaIfType := 140
  const ipForward: IanaIfType := 141
  const msdsl: IanaIfType := 142
  const ieee1394: IanaIfType := 143
  const if_gsn: IanaIfType := 144
  const dvbRccMacLayer: IanaIfType := 145
  const dvbRccDownstream: IanaIfType := 146
  const dvbRccUpstream: IanaIfType := 147
  const atmVirtual: IanaIfType := 148
  const mplsTunnel: IanaIfType := 149
  const srp: IanaIfType := 150
  const voiceOverAtm: IanaIfType := 151
  const voiceOverFrameRelay: IanaIfType := 152
  const idsl: IanaIfType := 153
  const compositeLink: IanaIfType := 154
  const ss7SigLink: IanaIfType := 155
  const propWirelessP2P: IanaIfType := 156
  const frForward: IanaIfType := 157
  const rfc1483: IanaIfType := 158
  const usb: IanaIfType := 159
  const ieee8023adLag: IanaIfType := 160
  const bgppolicyaccounting: IanaIfType := 161
  const frf16MfrBundle: IanaIfType := 162
  const h323Gatekeeper: IanaIfType := 163
  const h323Proxy: IanaIfType := 164
  const mpls: IanaIfType := 165
  const mfSigLink: IanaIfType := 166
  const hdsl2: IanaIfType := 167
  const shdsl: IanaIfType := 168
  const ds1FDL: IanaIfType := 169
  const pos: IanaIfType := 170
  const dvbAsiIn: IanaIfType := 171
  const dvbAsiOut: IanaIfType := 172
  const plc: IanaIfType := 173
  const nfas: IanaIfType := 174
  const tr008: IanaIfType := 175
  const gr303RDT: IanaIfType := 176
  const gr303IDT: IanaIfType := 177
  const isup: IanaIfType := 178
  const propDocsWirelessMaclayer: IanaIfType := 179
  const propDocsWirelessDownstream: IanaIfType := 180
  const propDocsWirelessUpstream: IanaIfType := 181
  const hiperlan2: IanaIfType := 182
  const propBWAp2Mp: IanaIfType := 183
  const sonetOverheadChannel: IanaIfType := 184
  const digitalWrapperOverheadChannel: IanaIfType := 185
  const aal2: IanaIfType := 186
  const radioMAC: IanaIfType := 187
  const atmRadio: IanaIfType := 188
  const imt: IanaIfType := 189
  const mvl: IanaIfType := 190
  const reachDSL: IanaIfType := 191
  const frDlciEndPt: IanaIfType := 192
  const atmVciEndPt: IanaIfType := 193
  const opticalChannel: IanaIfType := 194
  const opticalTransport: IanaIfType := 195
  const propAtm: IanaIfType := 196
  const voiceOverCable: IanaIfType := 197
  const infiniband: IanaIfType := 198
  const teLink: IanaIfType := 199
  const q2931: IanaIfType := 200
  const virtualTg: IanaIfType := 201
  const sipTg: IanaIfType := 202
  const sipSig: IanaIfType := 203
  const docsCableUpstreamChannel: IanaIfType := 204
  const econet: IanaIfType := 205
  const pon155: IanaIfType := 206
  const pon622: IanaIfType := 207
  const bridge: IanaIfType := 208
  const linegroup: IanaIfType := 209
  const voiceEMFGD: IanaIfType := 210
  const voiceFGDEANA: IanaIfType := 211
  const voiceDID: IanaIfType := 212
  const mpegTransport: IanaIfType := 213
  const sixToFour: IanaIfType := 214
  const gtp: IanaIfType := 215
  const pdnEtherLoop1: IanaIfType := 216
  const pdnEtherLoop2: IanaIfType := 217
  const opticalChannelGroup: IanaIfType := 218
  const homepna: IanaIfType := 219
  const gfp: IanaIfType := 220
  const ciscoISLvlan: IanaIfType := 221
  const actelisMetaLOOP: IanaIfType := 222
  const fcipLink: IanaIfType := 223
  const rpr: IanaIfType := 224
  const qam: IanaIfType := 225
  const lmp: IanaIfType := 226
  const cblVectaStar: IanaIfType := 227
  const docsCableMCmtsDownstream: IanaIfType := 228
  const adsl2: IanaIfType := 229
  const macSecControlledIF: IanaIfType := 230
  const macSecUncontrolledIF: IanaIfType := 231
  const aviciOpticalEther: IanaIfType := 232
  const atmbond: IanaIfType := 233
  const voiceFGDOS: IanaIfType := 234
  const mocaVersion1: IanaIfType := 235
  const ieee80216WMAN: IanaIfType := 236
  const adsl2plus: IanaIfType := 237
  const dvbRcsMacLayer: IanaIfType := 238
  const dvbTdm: IanaIfType := 239
  const dvbRcsTdma: IanaIfType := 240
  const x86Laps: IanaIfType := 241
  const wwanPP: IanaIfType := 242
  const wwanPP2: IanaIfType := 243
  const voiceEBS: IanaIfType := 244
  const ifPwType: IanaIfType := 245
  const ilan: IanaIfType := 246
  const pip: IanaIfType := 247
  const aluELP: IanaIfType := 248
  const gpon: IanaIfType := 249
  const vdsl2: IanaIfType := 250
  const capwapDot11Profile: IanaIfType := 251
  const capwapDot11Bss: IanaIfType := 252
  const capwapWtpVirtualRadio: IanaIfType := 253
  const bits: IanaIfType := 254
  const docsCableUpstreamRfPort: IanaIfType := 255
  const cableDownstreamRfPort: IanaIfType := 256
  const vmwareVirtualNic: IanaIfType := 257
  const ieee802154: IanaIfType := 258
  const otnOdu: IanaIfType := 259
  const otnOtu: IanaIfType := 260
  const ifVfiType: IanaIfType := 261
  const g9981: IanaIfType := 262
  const g9982: IanaIfType := 263
  const g9983: IanaIfType := 264
  const aluEpon: IanaIfType := 265
  const aluEponOnu: IanaIfType := 266
  const aluEponPhysicalUni: IanaIfType := 267
  const aluEponLogicalLink: IanaIfType := 268
  const aluGponOnu: IanaIfType := 269
  const aluGponPhysicalUni: IanaIfType := 270
  const vmwareNicTeam: IanaIfType := 271
  const docsOfdmDownstream: IanaIfType := 272
  const docsOfdmaUpstream: IanaIfType := 273
  const gfast: IanaIfType := 274
  const sdci: IanaIfType := 275
  const xboxWireless: IanaIfType := 276
  const fastdsl: IanaIfType := 277
  const docsCableScte55d1FwdOob: IanaIfType := 278
  const docsCableScte55d1RetOob: IanaIfType := 279
  const docsCableScte55d2DsOob: IanaIfType := 280
  const docsCableScte55d2UsOob: IanaIfType := 281
  const docsCableNdf: IanaIfType := 282
  const docsCableNdr: IanaIfType := 283
  const ptm: IanaIfType := 284
  const ghn: IanaIfType := 285
  const otnOtsi: IanaIfType := 286
  const otnOtuc: IanaIfType := 287
  const otnOduc: IanaIfType := 288
  const otnOtsig: IanaIfType := 289
  const microwaveCarrierTermination: IanaIfType := 290
  const microwaveRadioLinkTerminal: IanaIfType := 291
  const ieee8021axDrni: IanaIfType := 292
  const ax25: IanaIfType := 293
  const ieee19061nanocom: IanaIfType := 294
  const cpri: IanaIfType := 295
  const omni: IanaIfType := 296
  const roe: IanaIfType := 297
  const p2pOverLan: IanaIfType := 298

  /** toString: the canonical identity name of an interface type. The switch
      is laid out as a search tree over the enumerator values; `Unknown`,
      which has no case of its own, falls to the default "unknown". */
  function ToString(t: IanaIfType): string
  {
    if t < 150 then
      if t < 60 then
        if t < 30 then
          ToStringFrom0(t)
        else
          ToStringFrom30(t)
      else
        if t < 90 then
          ToStringFrom60(t)
        else
          if t < 120 then
            ToStringFrom90(t)
          else
            ToStringFrom120(t)
    else
      if t < 210 then
        if t < 180 then
          ToStringFrom150(t)
        else
          ToStringFrom180(t)
      else
        if t < 240 then
          ToStringFrom210(t)
        else
          if t < 270 then
            ToStringFrom240(t)
          else
            ToStringFrom270(t)
  }

  /** The cases of toString for the values 0 to 29. */
  function ToStringFrom0(t: IanaIfType): string
    requires 0 <= t <= 29
  {
    if t < 15 then
      if t < 7 then
        if t < 3 then
          if t < 1 then
            "unknown"  // Unknown: the default branch
          else
            if t < 2 then
              "other"  // other
            else
              "regular1822"  // regular1822
        else
          if t < 5 then
            if t < 4 then
              "hdh1822"  // hdh1822
            else
              "ddnX25"  // ddnX25
          else
            if t < 6 then
              "rfc877x25"  // rfc877x25
            else
              "ethernetCsmacd"  // ethernetCsmacd
      else
        if t < 11 then
          if t < 9 then
            if t < 8 then
              "iso88023Csmacd"  // iso88023Csmacd
            else
              "iso88024TokenBus"  // iso88024TokenBus
          else
            if t < 10 then
              "iso88025TokenRing"  // iso88025TokenRing
            else
              "iso88026Man"  // iso88026Man
        else
          if t < 13 then
            if t < 12 then
              "starLan"  // starLan
            else
              "proteon10Mbit"  // proteon10Mbit
          else
            if t < 14 then
              "proteon80Mbit"  // proteon80Mbit
            else
              "hyperchannel"  // hyperchannel
    else
      if t < 22 then
        if t < 18 then
          if t < 16 then
            "fddi"  // fddi
          else
            if t < 17 then
              "lapb"  // lapb
            else
              "sdlc"  // sdlc
        else
          if t < 20 then
            if t < 19 then
              "ds1"  // ds1
            else
              "e1"  // e1
          else
            if t < 21 then
              "basicISDN"  // basicISDN
            else
              "primaryISDN"  // primaryISDN
      else
        if t < 26 then
          if t < 24 then
            if t < 23 then
              "propPointToPointSerial"  // propPointToPointSerial
            else
              "ppp"  // ppp
          else
            if t < 25 then
              "softwareLoopback"  // softwareLoopback
            else
              "eon"  // eon
        else
          if t < 28 then
            if t < 27 then
              "ethernet3Mbit"  // ethernet3Mbit
            else
              "nsip"  // nsip
          else
            if t < 29 then
              "slip"  // slip
            else
              "ultra"  // ultra
  }

  /** The cases of toString for the values 30 to 59. */
  function ToStringFrom30(t: IanaIfType): string
    requires 30 <= t <= 59
  {
    if t < 45 then
      if t < 37 then
        if t < 33 then
          if t < 31 then
            "ds3"  // ds3
          else
            if t < 32 then
              "sip"  // sip
            else
              "frameRelay"  // frameRelay
        else
          if t < 35 then
            if t < 34 then
              "rs232"  // rs232
            else
              "para"  // para
          else
            if t < 36 then
              "arcnet"  // arcnet
            else
              "arcnetPlus"  // arcnetPlus
      else
        if t < 41 then
          if t < 39 then
            if t < 38 then
              "miox25"  // miox25
            else
              "sonet"  // sonet
          else
            if t < 40 then
              "x25ple"  // x25ple
            else
              "iso88022llc"  // iso88022llc
        else
          if t < 43 then
            if t < 42 then
              "localTalk"  // localTalk
            else
              "smdsDxi"  // smdsDxi
          else
            if t < 44 then
              "frameRelayService"  // frameRelayService
            else
              "v35"  // v35
    else
      if t < 52 then
        if t < 48 then
          if t < 46 then
            "hssi"  // hssi
          else
            if t < 47 then
              "hippi"  // hippi
            else
              "modem"  // modem
        else
          if t < 50 then
            if t < 49 then
              "aal5"  // aal5
            else
              "sonetPath"  // sonetPath
          else
            if t < 51 then
              "sonetVT"  // sonetVT
            else
              "smdsIcip"  // smdsIcip
      else
        if t < 56 then
          if t < 54 then
            if t < 53 then
              "propVirtual"  // propVirtual
            else
              "propMultiplexor"  // propMultiplexor
          else
            if t < 55 then
              "ieee80212"  // ieee80212
            else
              "fibreChannel"  // fibreChannel
        else
          if t < 58 then
            if t < 57 then
              "hippiInterface"  // hippiInterface
            else
              "frameRelayInterconnect"  // frameRelayInterconnect
          else
            if t < 59 then
              "aflane8023"  // aflane8023
            else
              "aflane8025"  // aflane8025
  }

  /** The cases of toString for the values 60 to 89. */
  function ToStringFrom60(t: IanaIfType): string
    requires 60 <= t <= 89
  {
    if t < 75 then
      if t < 67 then
        if t < 63 then
          if t < 61 then
            "cctEmul"  // cctEmul
          else
            if t < 62 then
              "fastEther"  // fastEther
            else
              "isdn"  // isdn
        else
          if t < 65 then
            if t < 64 then
              "v11"  // v11
            else
              "v36"  // v36
          else
            if t < 66 then
              "g703at64k"  // g703at64k
            else
              "g703at2mb"  // g703at2mb
      else
        if t < 71 then
          if t < 69 then
            if t < 68 then
              "qllc"  // qllc
            else
              "fastEtherFX"  // fastEtherFX
          else
            if t < 70 then
              "channel"  // channel
            else
              "ieee80211"  // ieee80211
        else
          if t < 73 then
            if t < 72 then
              "ibm370parChan"  // ibm370parChan
            else
              "escon"  // escon
          else
            if t < 74 then
              "dlsw"  // dlsw
            else
              "isdns"  // isdns
    else
      if t < 82 then
        if t < 78 then
          if t < 76 then
            "isdnu"  // isdnu
          else
            if t < 77 then
              "lapd"  // lapd
            else
              "ipSwitch"  // ipSwitch
        else
          if t < 80 then
            if t < 79 then
              "rsrb"  // rsrb
            else
              "atmLogical"  // atmLogical
          else
            if t < 81 then
              "ds0"  // ds0
            else
              "ds0Bundle"  // ds0Bundle
      else
        if t < 86 then
          if t < 84 then
            if t < 83 then
              "bsc"  // bsc
            else
              "async"  // async
          else
            if t < 85 then
              "cnr"  // cnr
            else
              "iso88025Dtr"  // iso88025Dtr
        else
          if t < 88 then
            if t < 87 then
              "eplrs"  // eplrs
            else
              "arap"  // arap
          else
            if t < 89 then
              "propCnls"  // propCnls
            else
              "hostPad"  // hostPad
  }

  /** The cases of toString for the values 90 to 119. */
  function ToStringFrom90(t: IanaIfType): string
    requires 90 <= t <= 119
  {
    if t < 105 then
      if t < 97 then
        if t < 93 then
          if t < 91 then
            "termPad"  // termPad
          else
            if t < 92 then
              "frameRelayMPI"  // frameRelayMPI
            else
              "x213"  // x213
        else
          if t < 95 then
            if t < 94 then
              "adsl"  // adsl
            else
              "radsl"  // radsl
          else
            if t < 96 then
              "sdsl"  // sdsl
            else
              "vdsl"  // vdsl
      else
        if t < 101 then
          if t < 99 then
            if t < 98 then
              "iso88025CRFPInt"  // iso88025CRFPInt
            else
              "myrinet"  // myrinet
          else
            if t < 100 then
              "voiceEM"  // voiceEM
            else
              "voiceFXO"  // voiceFXO
        else
          if t < 103 then
            if t < 102 then
              "voiceFXS"  // voiceFXS
            else
              "voiceEncap"  // voiceEncap
          else
            if t < 104 then
              "voiceOverIp"  // voiceOverIp
            else
              "atmDxi"  // atmDxi
    else
      if t < 112 then
        if t < 108 then
          if t < 106 then
            "atmFuni"  // atmFuni
          else
            if t < 107 then
              "atmIma"  // atmIma
            else
              "pppMultilinkBundle"  // pppMultilinkBundle
        else
          if t < 110 then
            if t < 109 then
              "ipOverCdlc"  // ipOverCdlc
            else
              "ipOverClaw"  // ipOverClaw
          else
            if t < 111 then
              "stackToStack"  // stackToStack
            else
              "virtualIpAddress"  // virtualIpAddress
      else
        if t < 116 then
          if t < 114 then
            if t < 113 then
              "mpc"  // mpc
            else
              "ipOverAtm"  // ipOverAtm
          else
            if t < 115 then
              "iso88025Fiber"  // iso88025Fiber
            else
              "tdlc"  // tdlc
        else
          if t < 118 then
            if t < 117 then
              "gigabitEthernet"  // gigabitEthernet
            else
              "hdlc"  // hdlc
          else
            if t < 119 then
              "lapf"  // lapf
            else
              "v37"  // v37
  }

  /** The cases of toString for the values 120 to 149. */
  function ToStringFrom120(t: IanaIfType): string
    requires 120 <= t <= 149
  {
    if t < 135 then
      if t < 127 then
        if t < 123 then
          if t < 121 then
            "x25mlp"  // x25mlp
          else
            if t < 122 then
              "x25huntGroup"  // x25huntGroup
            else
              "transpHdlc"  // transpHdlc
        else
          if t < 125 then
            if t < 124 then
              "interleave"  // interleave
            else
              "fast"  // fast
          else
            if t < 126 then
              "ip"  // ip
            else
              "docsCableMaclayer"  // docsCableMaclayer
      else
        if t < 131 then
          if t < 129 then
            if t < 128 then
              "docsCableDownstream"  // docsCableDownstream
            else
              "docsCableUpstream"  // docsCableUpstream
          else
            if t < 130 then
              "a12MppSwitch"  // a12MppSwitch
            else
              "tunnel"  // tunnel
        else
          if t < 133 then
            if t < 132 then
              "coffee"  // coffee
            else
              "ces"  // ces
          else
            if t < 134 then
              "atmSubInterface"  // atmSubInterface
            else
              "l2vlan"  // l2vlan
    else
      if t < 142 then
        if t < 138 then
          if t < 136 then
            "l3ipvlan"  // l3ipvlan
          else
            if t < 137 then
              "l3ipxvlan"  // l3ipxvlan
            else
              "digitalPowerline"  // digitalPowerline
        else
          if t < 140 then
            if t < 139 then
              "mediaMailOverIp"  // mediaMailOverIp
            else
              "dtm"  // dtm
          else
            if t < 141 then
              "dcn"  // dcn
            else
              "ipForward"  // ipForward
      else
        if t < 146 then
          if t < 144 then
            if t < 143 then
              "msdsl"  // msdsl
            else
              "ieee1394"  // ieee1394
          else
            if t < 145 then
              "if-gsn"  // if_gsn
            else
              "dvbRccMacLayer"  // dvbRccMacLayer
        else
          if t < 148 then
            if t < 147 then
              "dvbRccDownstream"  // dvbRccDownstream
            else
              "dvbRccUpstream"  // dvbRccUpstream
          else
            if t < 149 then
              "atmVirtual"  // atmVirtual
            else
              "mplsTunnel"  // mplsTunnel
  }

  /** The cases of toString for the values 150 to 179. */
  function ToStringFrom150(t: IanaIfType): string
    requires 150 <= t <= 179
  {
    if t < 165 then
      if t < 157 then
        if t < 153 then
          if t < 151 then
            "srp"  // srp
          else
            if t < 152 then
              "voiceOverAtm"  // voiceOverAtm
            else
              "voiceOverFrameRelay"  // voiceOverFrameRelay
        else
          if t < 155 then
            if t < 154 then
              "idsl"  // idsl
            else
              "compositeLink"  // compositeLink
          else
            if t < 156 then
              "ss7SigLink"  // ss7SigLink
            else
              "propWirelessP2P"  // propWirelessP2P
      else
        if t < 161 then
          if t < 159 then
            if t < 158 then
              "frForward"  // frForward
            else
              "rfc1483"  // rfc1483
          else
            if t < 160 then
              "usb"  // usb
            else
              "ieee8023adLag"  // ieee8023adLag
        else
          if t < 163 then
            if t < 162 then
              "bgppolicyaccounting"  // bgppolicyaccounting
            else
              "frf16MfrBundle"  // frf16MfrBundle
          else
            if t < 164 then
              "h323Gatekeeper"  // h323Gatekeeper
            else
              "h323Proxy"  // h323Proxy
    else
      if t < 172 then
        if t < 168 then
          if t < 166 then
            "mpls"  // mpls
          else
            if t < 167 then
              "mfSigLink"  // mfSigLink
            else
              "hdsl2"  // hdsl2
        else
          if t < 170 then
            if t < 169 then
              "shdsl"  // shdsl
            else
              "ds1FDL"  // ds1FDL
          else
            if t < 171 then
              "pos"  // pos
            else
              "dvbAsiIn"  // dvbAsiIn
      else
        if t < 176 then
          if t < 174 then
            if t < 173 then
              "dvbAsiOut"  // dvbAsiOut
            else
              "plc"  // plc
          else
            if t < 175 then
              "nfas"  // nfas
            else
              "tr008"  // tr008
        else
          if t < 178 then
            if t < 177 then
              "gr303RDT"  // gr303RDT
            else
              "gr303IDT"  // gr303IDT
          else
            if t < 179 then
              "isup"  // isup
            else
              "propDocsWirelessMaclayer"  // propDocsWirelessMaclayer
  }

  /** The cases of toString for the values 180 to 209. */
  function ToStringFrom180(t: IanaIfType): string
    requires 180 <= t <= 209
  {
    if t < 195 then
      if t < 187 then
        if t < 183 then
          if t < 181 then
            "propDocsWirelessDownstream"  // propDocsWirelessDownstream
          else
            if t < 182 then
              "propDocsWirelessUpstream"  // propDocsWirelessUpstream
            else
              "hiperlan2"  // hiperlan2
        else
          if t < 185 then
            if t < 184 then
              "propBWAp2Mp"  // propBWAp2Mp
            else
              "sonetOverheadChannel"  // sonetOverheadChannel
          else
            if t < 186 then
              "digitalWrapperOverheadChannel"  // digitalWrapperOverheadChannel
            else
              "aal2"  // aal2
      else
        if t < 191 then
          if t < 189 then
            if t < 188 then
              "radioMAC"  // radioMAC
            else
              "atmRadio"  // atmRadio
          else
            if t < 190 then
              "imt"  // imt
            else
              "mvl"  // mvl
        else
          if t < 193 then
            if t < 192 then
              "reachDSL"  // reachDSL
            else
              "frDlciEndPt"  // frDlciEndPt
          else
            if t < 194 then
              "atmVciEndPt"  // atmVciEndPt
            else
              "opticalChannel"  // opticalChannel
    else
      if t < 202 then
        if t < 198 then
          if t < 196 then
            "opticalTransport"  // opticalTransport
          else
            if t < 197 then
              "propAtm"  // propAtm
            else
              "voiceOverCable"  // voiceOverCable
        else
          if t < 200 then
            if t < 199 then
              "infiniband"  // infiniband
            else
              "teLink"  // teLink
          else
            if t < 201 then
              "q2931"  // q2931
            else
              "virtualTg"  // virtualTg
      else
        if t < 206 then
          if t < 204 then
            if t < 203 then
              "sipTg"  // sipTg
            else
              "sipSig"  // sipSig
          else
            if t < 205 then
              "docsCableUpstreamChannel"  // docsCableUpstreamChannel
            else
              "econet"  // econet
        else
          if t < 208 then
            if t < 207 then
              "pon155"  // pon155
            else
              "pon622"  // pon622
          else
            if t < 209 then
              "bridge"  // bridge
            else
              "linegroup"  // linegroup
  }

  /** The cases of toString for the values 210 to 239. */
  function ToStringFrom210(t: IanaIfType): string
    requires 210 <= t <= 239
  {
    if t < 225 then
      if t < 217 then
        if t < 213 then
          if t < 211 then
            "voiceEMFGD"  // voiceEMFGD
          else
            if t < 212 then
              "voiceFGDEANA"  // voiceFGDEANA
            else
              "voiceDID"  // voiceDID
        else
          if t < 215 then
            if t < 214 then
              "mpegTransport"  // mpegTransport
            else
              "sixToFour"  // sixToFour
          else
            if t < 216 then
              "gtp"  // gtp
            else
              "pdnEtherLoop1"  // pdnEtherLoop1
      else
        if t < 221 then
          if t < 219 then
            if t < 218 then
              "pdnEtherLoop2"  // pdnEtherLoop2
            else
              "opticalChannelGroup"  // opticalChannelGroup
          else
            if t < 220 then
              "homepna"  // homepna
            else
              "gfp"  // gfp
        else
          if t < 223 then
            if t < 222 then
              "ciscoISLvlan"  // ciscoISLvlan
            else
              "actelisMetaLOOP"  // actelisMetaLOOP
          else
            if t < 224 then
              "fcipLink"  // fcipLink
            else
              "rpr"  // rpr
    else
      if t < 232 then
        if t < 228 then
          if t < 226 then
            "qam"  // qam
          else
            if t < 227 then
              "lmp"  // lmp
            else
              "cblVectaStar"  // cblVectaStar
        else
          if t < 230 then
            if t < 229 then
              "docsCableMCmtsDownstream"  // docsCableMCmtsDownstream
            else
              "adsl2"  // adsl2
          else
            if t < 231 then
              "macSecControlledIF"  // macSecControlledIF
            else
              "macSecUncontrolledIF"  // macSecUncontrolledIF
      else
        if t < 236 then
          if t < 234 then
            if t < 233 then
              "aviciOpticalEther"  // aviciOpticalEther
            else
              "atmbond"  // atmbond
          else
            if t < 235 then
              "voiceFGDOS"  // voiceFGDOS
            else
              "mocaVersion1"  // mocaVersion1
        else
          if t < 238 then
            if t < 237 then
              "ieee80216WMAN"  // ieee80216WMAN
            else
              "adsl2plus"  // adsl2plus
          else
            if t < 239 then
              "dvbRcsMacLayer"  // dvbRcsMacLayer
            else
              "dvbTdm"  // dvbTdm
  }

  /** The cases of toString for the values 240 to 269. */
  function ToStringFrom240(t: IanaIfType): string
    requires 240 <= t <= 269
  {
    if t < 255 then
      if t < 247 then
        if t < 243 then
          if t < 241 then
            "dvbRcsTdma"  // dvbRcsTdma
          else
            if t < 242 then
              "x86Laps"  // x86Laps
            else
              "wwanPP"  // wwanPP
        else
          if t < 245 then
            if t < 244 then
              "wwanPP2"  // wwanPP2
            else
              "voiceEBS"  // voiceEBS
          else
            if t < 246 then
              "ifPwType"  // ifPwType
            else
              "ilan"  // ilan
      else
        if t < 251 then
          if t < 249 then
            if t < 248 then
              "pip"  // pip
            else
              "aluELP"  // aluELP
          else
            if t < 250 then
              "gpon"  // gpon
            else
              "vdsl2"  // vdsl2
        else
          if t < 253 then
            if t < 252 then
              "capwapDot11Profile"  // capwapDot11Profile
            else
              "capwapDot11Bss"  // capwapDot11Bss
          else
            if t < 254 then
              "capwapWtpVirtualRadio"  // capwapWtpVirtualRadio
            else
              "bits"  // bits
    else
      if t < 262 then
        if t < 258 then
          if t < 256 then
            "docsCableUpstreamRfPort"  // docsCableUpstreamRfPort
          else
            if t < 257 then
              "cableDownstreamRfPort"  // cableDownstreamRfPort
            else
              "vmwareVirtualNic"  // vmwareVirtualNic
        else
          if t < 260 then
            if t < 259 then
              "ieee802154"  // ieee802154
            else
              "otnOdu"  // otnOdu
          else
            if t < 261 then
              "otnOtu"  // otnOtu
            else
              "ifVfiType"  // ifVfiType
      else
        if t < 266 then
          if t < 264 then
            if t < 263 then
              "g9981"  // g9981
            else
              "g9982"  // g9982
          else
            if t < 265 then
              "g9983"  // g9983
            else
              "aluEpon"  // aluEpon
        else
          if t < 268 then
            if t < 267 then
              "aluEponOnu"  // aluEponOnu
            else
              "aluEponPhysicalUni"  // aluEponPhysicalUni
          else
            if t < 269 then
              "aluEponLogicalLink"  // aluEponLogicalLink
            else
              "aluGponOnu"  // aluGponOnu
  }

  /** The cases of toString for the values 270 to 298. */
  function ToStringFrom270(t: IanaIfType): string
    requires 270 <= t <= 298
  {
    if t < 284 then
      if t < 277 then
        if t < 273 then
          if t < 271 then
            "aluGponPhysicalUni"  // aluGponPhysicalUni
          else
            if t < 272 then
              "vmwareNicTeam"  // vmwareNicTeam
            else
              "docsOfdmDownstream"  // docsOfdmDownstream
        else
          if t < 275 then
            if t < 274 then
              "docsOfdmaUpstream"  // docsOfdmaUpstream
            else
              "gfast"  // gfast
          else
            if t < 276 then
              "sdci"  // sdci
            else
              "xboxWireless"  // xboxWireless
      else
        if t < 280 then
          if t < 278 then
            "fastdsl"  // fastdsl
          else
            if t < 279 then
              "docsCableScte55d1FwdOob"  // docsCableScte55d1FwdOob
            else
              "docsCableScte55d1RetOob"  // docsCableScte55d1RetOob
        else
          if t < 282 then
            if t < 281 then
              "docsCableScte55d2DsOob"  // docsCableScte55d2DsOob
            else
              "docsCableScte55d2UsOob"  // docsCableScte55d2UsOob
          else
            if t < 283 then
              "docsCableNdf"  // docsCableNdf
            else
              "docsCableNdr"  // docsCableNdr
    else
      if t < 291 then
        if t < 287 then
          if t < 285 then
            "ptm"  // ptm
          else
            if t < 286 then
              "ghn"  // ghn
            else
              "otnOtsi"  // otnOtsi
        else
          if t < 289 then
            if t < 288 then
              "otnOtuc"  // otnOtuc
            else
              "otnOduc"  // otnOduc
          else
            if t < 290 then
              "otnOtsig"  // otnOtsig
            else
              "microwaveCarrierTermination"  // microwaveCarrierTermination
      else
        if t < 295 then
          if t < 293 then
            if t < 292 then
              "microwaveRadioLinkTerminal"  // microwaveRadioLinkTerminal
            else
              "ieee8021axDrni"  // ieee8021axDrni
          else
            if t < 294 then
              "ax25"  // ax25
            else
              "ieee19061nanocom"  // ieee19061nanocom
        else
          if t < 297 then
            if t < 296 then
              "cpri"  // cpri
            else
              "omni"  // omni
          else
            if t < 298 then
              "roe"  // roe
            else
              "p2pOverLan"  // p2pOverLan
  }

  /** fromString: the enumerator whose table key is exactly `s` (the match is
      case-sensitive), or `Unknown` when `s` is not a key. The table is laid
      out as a trie: by key length, then by distinguishing characters, and
      each leaf compares the whole key. */
  function FromString(s: string): IanaIfType
  {
    match |s|
    case 2 => LookupLength2(s)
    case 3 => LookupLength3(s)
    case 4 => LookupLength4(s)
    case 5 => LookupLength5(s)
    case 6 => LookupLength6(s)
    case 7 => LookupLength7(s)
    case 8 => LookupLength8(s)
    case 9 => LookupLength9(s)
    case 10 => LookupLength10(s)
    case 11 => LookupLength11(s)
    case 12 => LookupLength12(s)
    case 13 => LookupLength13(s)
    case 14 => LookupLength14(s)
    case 15 => LookupLength15(s)
    case 16 => LookupLength16(s)
    case 17 => LookupLength17(s)
    case 18 => LookupLength18(s)
    case 19 => LookupLength19(s)
    case 20 => LookupLength20(s)
    case 21 => LookupLength21(s)
    case 22 => LookupLength22(s)
    case 23 => LookupLength23(s)
    case 24 => LookupLength24(s)
    case 26 => LookupLength26(s)
    case 27 => LookupLength27(s)
    case 29 => LookupLength29(s)
    case _ => Unknown
  }

  /** The table keys of length 2. */
  function LookupLength2(s: string): IanaIfType
    requires |s| == 2
  {
    match s[0]
    case 'e' =>
        if s == "e1" then e1 else Unknown
    case 'i' =>
        if s == "ip" then ip else Unknown
    case _ => Unknown
  }

  /** The table keys of length 3. */
  function LookupLength3(s: string): IanaIfType
    requires |s| == 3
  {
    match s[0]
    case 'b' =>
        if s == "bsc" then bsc else Unknown
    case 'c' => (
        match s[1]
        case 'e' =>
            if s == "ces" then ces else Unknown
        case 'n' =>
            if s == "cnr" then cnr else Unknown
        case _ => Unknown
      )
    case 'd' => (
        match s[2]
        case '0' =>
            if s == "ds0" then ds0 else Unknown
        case '1' =>
            if s == "ds1" then ds1 else Unknown
        case '3' =>
            if s == "ds3" then ds3 else Unknown
        case 'm' =>
            if s == "dtm" then dtm else Unknown
        case 'n' =>
            if s == "dcn" then dcn else Unknown
        case _ => Unknown
      )
    case 'e' =>
        if s == "eon" then eon else Unknown
    case 'g' => (
        match s[1]
        case 'f' =>
            if s == "gfp" then gfp else Unknown
        case 'h' =>
            if s == "ghn" then ghn else Unknown
        case 't' =>
            if s == "gtp" then gtp else Unknown
        case _ => Unknown
      )
    case 'i' =>
        if s == "imt" then imt else Unknown
    case 'l' =>
        if s == "lmp" then lmp else Unknown
    case 'm' => (
        match s[1]
        case 'p' =>
            if s == "mpc" then mpc else Unknown
        case 'v' =>
            if s == "mvl" then mvl else Unknown
        case _ => Unknown
      )
    case 'p' => (
        match s[1]
        case 'i' =>
            if s == "pip" then pip else Unknown
        case 'l' =>
            if s == "plc" then plc else Unknown
        case 'o' =>
            if s == "pos" then pos else Unknown
        case 'p' =>
            if s == "ppp" then ppp else Unknown
        case 't' =>
            if s == "ptm" then ptm else Unknown
        case _ => Unknown
      )
    case 'q' =>
        if s == "qam" then qam else Unknown
    case 'r' => (
        match s[1]
        case 'o' =>
            if s == "roe" then roe else Unknown
        case 'p' =>
            if s == "rpr" then rpr else Unknown
        case _ => Unknown
      )
    case 's' => (
        match s[1]
        case 'i' =>
            if s == "sip" then sip else Unknown
        case 'r' =>
            if s == "srp" then srp else Unknown
        case _ => Unknown
      )
    case 'u' =>
        if s == "usb" then usb else Unknown
    case 'v' => (
        match s[2]
        case '1' =>
            if s == "v11" then v11 else Unknown
        case '5' =>
            if s == "v35" then v35 else Unknown
        case '6' =>
            if s == "v36" then v36 else Unknown
        case '7' =>
            if s == "v37" then v37 else Unknown
        case _ => Unknown
      )
    case _ => Unknown
  }

  /** The table keys of length 4. */
  function LookupLength4(s: string): IanaIfType
    requires |s| == 4
  {
    match s[0]
    case 'a' => (
        match s[1]
        case 'a' => (
            match s[3]
            case '2' =>
                if s == "aal2" then aal2 else Unknown
            case '5' =>
                if s == "aal5" then aal5 else Unknown
            case _ => Unknown
          )
        case 'd' =>
            if s == "adsl" then adsl else Unknown
        case 'r' =>
            if s == "arap" then arap else Unknown
        case 'x' =>
            if s == "ax25" then ax25 else Unknown
        case _ => Unknown
      )
    case 'b' =>
        if s == "bits" then bits else Unknown
    case 'c' =>
        if s == "cpri" then cpri else Unknown
    case 'd' =>
        if s == "dlsw" then dlsw else Unknown
    case 'f' => (
        match s[1]
        case 'a' =>
            if s == "fast" then fast else Unknown
        case 'd' =>
            if s == "fddi" then fddi else Unknown
        case _ => Unknown
      )
    case 'g' =>
        if s == "gpon" then gpon else Unknown
    case 'h' => (
        match s[1]
        case 'd' =>
            if s == "hdlc" then hdlc else Unknown
        case 's' =>
            if s == "hssi" then hssi else Unknown
        case _ => Unknown
      )
    case 'i' => (
        match s[2]
        case 'a' =>
            if s == "ilan" then ilan else Unknown
        case 'd' =>
            if s == "isdn" then isdn else Unknown
        case 's' =>
            if s == "idsl" then idsl else Unknown
        case 'u' =>
            if s == "isup" then isup else Unknown
        case _ => Unknown
      )
    case 'l' => (
        match s[3]
        case 'b' =>
            if s == "lapb" then lapb else Unknown
        case 'd' =>
            if s == "lapd" then lapd else Unknown
        case 'f' =>
            if s == "lapf" then lapf else Unknown
        case _ => Unknown
      )
    case 'm' =>
        if s == "mpls" then mpls else Unknown
    case 'n' => (
        match s[1]
        case 'f' =>
            if s == "nfas" then nfas else Unknown
        case 's' =>
            if s == "nsip" then nsip else Unknown
        case _ => Unknown
      )
    case 'o' =>
        if s == "omni" then omni else Unknown
    case 'p' =>
        if s == "para" then para else Unknown
    case 'q' =>
        if s == "qllc" then qllc else Unknown
    case 'r' =>
        if s == "rsrb" then rsrb else Unknown
    case 's' => (
        match s[2]
        case 'c' =>
            if s == "sdci" then sdci else Unknown
        case 'i' =>
            if s == "slip" then slip else Unknown
        case 'l' =>
            if s == "sdlc" then sdlc else Unknown
        case 's' =>
            if s == "sdsl" then sdsl else Unknown
        case _ => Unknown
      )
    case 't' =>
        if s == "tdlc" then tdlc else Unknown
    case 'v' =>
        if s == "vdsl" then vdsl else Unknown
    case 'x' =>
        if s == "x213" then x213 else Unknown
    case _ => Unknown
  }

  /** The table keys of length 5. */
  function LookupLength5(s: string): IanaIfType
    requires |s| == 5
  {
    match s[0]
    case 'a' => (
        match s[1]
        case 'd' =>
            if s == "adsl2" then adsl2 else Unknown
        case 's' =>
            if s == "async" then async else Unknown
        case _ => Unknown
      )
    case 'e' => (
        match s[1]
        case 'p' =>
            if s == "eplrs" then eplrs else Unknown
        case 's' =>
            if s == "escon" then escon else Unknown
        case _ => Unknown
      )
    case 'g' => (
        match s[4]
        case '1' =>
            if s == "g9981" then g9981 else Unknown
        case '2' =>
            if s == "g9982" then g9982 else Unknown
        case '3' =>
            if s == "g9983" then g9983 else Unknown
        case 't' =>
            if s == "gfast" then gfast else Unknown
        case _ => Unknown
      )
    case 'h' => (
        match s[1]
        case 'd' =>
            if s == "hdsl2" then hdsl2 else Unknown
        case 'i' =>
            if s == "hippi" then hippi else Unknown
        case _ => Unknown
      )
    case 'i' => (
        match s[4]
        case 's' =>
            if s == "isdns" then isdns else Unknown
        case 'u' =>
            if s == "isdnu" then isdnu else Unknown
        case _ => Unknown
      )
    case 'm' => (
        match s[1]
        case 'o' =>
            if s == "modem" then modem else Unknown
        case 's' =>
            if s == "msdsl" then msdsl else Unknown
        case _ => Unknown
      )
    case 'o' =>
        if s == "other" then other else Unknown
    case 'q' =>
        if s == "q2931" then q2931 else Unknown
    case 'r' => (
        match s[1]
        case 'a' =>
            if s == "radsl" then radsl else Unknown
        case 's' =>
            if s == "rs232" then rs232 else Unknown
        case _ => Unknown
      )
    case 's' => (
        match s[1]
        case 'h' =>
            if s == "shdsl" then shdsl else Unknown
        case 'i' =>
            if s == "sipTg" then sipTg else Unknown
        case 'o' =>
            if s == "sonet" then sonet else Unknown
        case _ => Unknown
      )
    case 't' =>
        if s == "tr008" then tr008 else Unknown
    case 'u' =>
        if s == "ultra" then ultra else Unknown
    case 'v' =>
        if s == "vdsl2" then vdsl2 else Unknown
    case _ => Unknown
  }

  /** The table keys of length 6. */
  function LookupLength6(s: string): IanaIfType
    requires |s| == 6
  {
    match s[5]
    case '2' =>
        if s == "pon622" then pon622 else Unknown
    case '5' => (
        match s[0]
        case 'd' =>
            if s == "ddnX25" then ddnX25 else Unknown
        case 'm' =>
            if s == "miox25" then miox25 else Unknown
        case 'p' =>
            if s == "pon155" then pon155 else Unknown
        case _ => Unknown
      )
    case 'L' =>
        if s == "ds1FDL" then ds1FDL else Unknown
    case 'P' => (
        match s[0]
        case 'a' =>
            if s == "aluELP" then aluELP else Unknown
        case 'w' =>
            if s == "wwanPP" then wwanPP else Unknown
        case _ => Unknown
      )
    case 'a' =>
        if s == "atmIma" then atmIma else Unknown
    case 'e' => (
        match s[0]
        case 'b' =>
            if s == "bridge" then bridge else Unknown
        case 'c' =>
            if s == "coffee" then coffee else Unknown
        case 'x' =>
            if s == "x25ple" then x25ple else Unknown
        case _ => Unknown
      )
    case 'g' =>
        if s == "sipSig" then sipSig else Unknown
    case 'i' =>
        if s == "atmDxi" then atmDxi else Unknown
    case 'k' =>
        if s == "teLink" then teLink else Unknown
    case 'l' =>
        if s == "tunnel" then tunnel else Unknown
    case 'm' =>
        if s == "dvbTdm" then dvbTdm else Unknown
    case 'n' => (
        match s[0]
        case 'i' =>
            if s == "if-gsn" then if_gsn else Unknown
        case 'l' =>
            if s == "l2vlan" then l2vlan else Unknown
        case _ => Unknown
      )
    case 'p' =>
        if s == "x25mlp" then x25mlp else Unknown
    case 't' => (
        match s[0]
        case 'a' =>
            if s == "arcnet" then arcnet else Unknown
        case 'e' =>
            if s == "econet" then econet else Unknown
        case _ => Unknown
      )
    case 'u' => (
        match s[4]
        case 'd' =>
            if s == "otnOdu" then otnOdu else Unknown
        case 't' =>
            if s == "otnOtu" then otnOtu else Unknown
        case _ => Unknown
      )
    case _ => Unknown
  }

  /** The table keys of length 7. */
  function LookupLength7(s: string): IanaIfType
    requires |s| == 7
  {
    match s[0]
    case 'a' => (
        match s[3]
        case 'E' =>
            if s == "aluEpon" then aluEpon else Unknown
        case 'F' =>
            if s == "atmFuni" then atmFuni else Unknown
        case 'b' =>
            if s == "atmbond" then atmbond else Unknown
        case _ => Unknown
      )
    case 'c' => (
        match s[1]
        case 'c' =>
            if s == "cctEmul" then cctEmul else Unknown
        case 'h' =>
            if s == "channel" then channel else Unknown
        case _ => Unknown
      )
    case 'f' =>
        if s == "fastdsl" then fastdsl else Unknown
    case 'h' => (
        match s[2]
        case 'h' =>
            if s == "hdh1822" then hdh1822 else Unknown
        case 'm' =>
            if s == "homepna" then homepna else Unknown
        case 's' =>
            if s == "hostPad" then hostPad else Unknown
        case _ => Unknown
      )
    case 'm' =>
        if s == "myrinet" then myrinet else Unknown
    case 'o' => (
        match s[4]
        case 'd' =>
            if s == "otnOduc" then otnOduc else Unknown
        case 't' => (
            match s[5]
            case 's' =>
                if s == "otnOtsi" then otnOtsi else Unknown
            case 'u' =>
                if s == "otnOtuc" then otnOtuc else Unknown
            case _ => Unknown
          )
        case _ => Unknown
      )
    case 'p' =>
        if s == "propAtm" then propAtm else Unknown
    case 'r' =>
        if s == "rfc1483" then rfc1483 else Unknown
    case 's' => (
        match s[1]
        case 'm' =>
            if s == "smdsDxi" then smdsDxi else Unknown
        case 'o' =>
            if s == "sonetVT" then sonetVT else Unknown
        case 't' =>
            if s == "starLan" then starLan else Unknown
        case _ => Unknown
      )
    case 't' =>
        if s == "termPad" then termPad else Unknown
    case 'v' =>
        if s == "voiceEM" then voiceEM else Unknown
    case 'w' =>
        if s == "wwanPP2" then wwanPP2 else Unknown
    case 'x' =>
        if s == "x86Laps" then x86Laps else Unknown
    case _ => Unknown
  }

  /** The table keys of length 8. */
  function LookupLength8(s: string): IanaIfType
    requires |s| == 8
  {
    match s[5]
    case '3' =>
        if s == "ieee1394" then ieee1394 else Unknown
    case 'D' => (
        match s[0]
        case 'r' =>
            if s == "reachDSL" then reachDSL else Unknown
        case 'v' =>
            if s == "voiceDID" then voiceDID else Unknown
        case _ => Unknown
      )
    case 'E' =>
        if s == "voiceEBS" then voiceEBS else Unknown
    case 'F' => (
        match s[7]
        case 'O' =>
            if s == "voiceFXO" then voiceFXO else Unknown
        case 'S' =>
            if s == "voiceFXS" then voiceFXS else Unknown
        case _ => Unknown
      )
    case 'I' =>
        if s == "gr303IDT" then gr303IDT else Unknown
    case 'M' =>
        if s == "radioMAC" then radioMAC else Unknown
    case 'R' =>
        if s == "gr303RDT" then gr303RDT else Unknown
    case 'c' =>
        if s == "smdsIcip" then smdsIcip else Unknown
    case 'd' =>
        if s == "atmRadio" then atmRadio else Unknown
    case 'i' => (
        match s[0]
        case 'd' =>
            if s == "dvbAsiIn" then dvbAsiIn else Unknown
        case 'f' =>
            if s == "fcipLink" then fcipLink else Unknown
        case _ => Unknown
      )
    case 'l' =>
        if s == "l3ipvlan" then l3ipvlan else Unknown
    case 'n' =>
        if s == "propCnls" then propCnls else Unknown
    case 's' =>
        if s == "otnOtsig" then otnOtsig else Unknown
    case 't' =>
        if s == "ipSwitch" then ipSwitch else Unknown
    case 'y' =>
        if s == "ifPwType" then ifPwType else Unknown
    case _ => Unknown
  }

  /** The table keys of length 9. */
  function LookupLength9(s: string): IanaIfType
    requires |s| == 9
  {
    match s[2]
    case '0' => (
        match s[6]
        case '2' =>
            if s == "g703at2mb" then g703at2mb else Unknown
        case '6' =>
            if s == "g703at64k" then g703at64k else Unknown
        case 'd' =>
            if s == "ds0Bundle" then ds0Bundle else Unknown
        case _ => Unknown
      )
    case '2' =>
        if s == "h323Proxy" then h323Proxy else Unknown
    case 'F' => (
        match s[0]
        case 'f' =>
            if s == "frForward" then frForward else Unknown
        case 'i' =>
            if s == "ipForward" then ipForward else Unknown
        case _ => Unknown
      )
    case 'O' =>
        if s == "ipOverAtm" then ipOverAtm else Unknown
    case 'S' =>
        if s == "mfSigLink" then mfSigLink else Unknown
    case 'V' =>
        if s == "ifVfiType" then ifVfiType else Unknown
    case 'b' =>
        if s == "dvbAsiOut" then dvbAsiOut else Unknown
    case 'c' => (
        match s[0]
        case 'l' =>
            if s == "localTalk" then localTalk else Unknown
        case 'r' =>
            if s == "rfc877x25" then rfc877x25 else Unknown
        case _ => Unknown
      )
    case 'e' => (
        match s[8]
        case '1' =>
            if s == "ieee80211" then ieee80211 else Unknown
        case '2' =>
            if s == "ieee80212" then ieee80212 else Unknown
        case _ => Unknown
      )
    case 'i' =>
        if s == "l3ipxvlan" then l3ipxvlan else Unknown
    case 'n' => (
        match s[0]
        case 'l' =>
            if s == "linegroup" then linegroup else Unknown
        case 's' =>
            if s == "sonetPath" then sonetPath else Unknown
        case _ => Unknown
      )
    case 'p' =>
        if s == "hiperlan2" then hiperlan2 else Unknown
    case 'r' =>
        if s == "virtualTg" then virtualTg else Unknown
    case 's' => (
        match s[0]
        case 'a' =>
            if s == "adsl2plus" then adsl2plus else Unknown
        case 'b' =>
            if s == "basicISDN" then basicISDN else Unknown
        case 'f' =>
            if s == "fastEther" then fastEther else Unknown
        case _ => Unknown
      )
    case 'x' =>
        if s == "sixToFour" then sixToFour else Unknown
    case _ => Unknown
  }

  /** The table keys of length 10. */
  function LookupLength10(s: string): IanaIfType
    requires |s| == 10
  {
    match s[1]
    case '2' =>
        if s == "p2pOverLan" then p2pOverLan else Unknown
    case 'e' =>
        if s == "ieee802154" then ieee802154 else Unknown
    case 'f' => (
        match s[9]
        case '3' =>
            if s == "aflane8023" then aflane8023 else Unknown
        case '5' =>
            if s == "aflane8025" then aflane8025 else Unknown
        case _ => Unknown
      )
    case 'l' => (
        match s[3]
        case 'E' =>
            if s == "aluEponOnu" then aluEponOnu else Unknown
        case 'G' =>
            if s == "aluGponOnu" then aluGponOnu else Unknown
        case _ => Unknown
      )
    case 'n' => (
        match s[2]
        case 'f' =>
            if s == "infiniband" then infiniband else Unknown
        case 't' =>
            if s == "interleave" then interleave else Unknown
        case _ => Unknown
      )
    case 'o' => (
        match s[6]
        case 'G' =>
            if s == "voiceFGDOS" then voiceFGDOS else Unknown
        case 'M' =>
            if s == "voiceEMFGD" then voiceEMFGD else Unknown
        case 'n' =>
            if s == "voiceEncap" then voiceEncap else Unknown
        case _ => Unknown
      )
    case 'p' => (
        match s[7]
        case 'd' =>
            if s == "ipOverCdlc" then ipOverCdlc else Unknown
        case 'l' =>
            if s == "ipOverClaw" then ipOverClaw else Unknown
        case 'n' =>
            if s == "mplsTunnel" then mplsTunnel else Unknown
        case _ => Unknown
      )
    case 'r' => (
        match s[0]
        case 'a' =>
            if s == "arcnetPlus" then arcnetPlus else Unknown
        case 'f' =>
            if s == "frameRelay" then frameRelay else Unknown
        case 't' =>
            if s == "transpHdlc" then transpHdlc else Unknown
        case _ => Unknown
      )
    case 's' =>
        if s == "ss7SigLink" then ss7SigLink else Unknown
    case 't' => (
        match s[3]
        case 'L' =>
            if s == "atmLogical" then atmLogical else Unknown
        case 'V' =>
            if s == "atmVirtual" then atmVirtual else Unknown
        case _ => Unknown
      )
    case 'v' =>
        if s == "dvbRcsTdma" then dvbRcsTdma else Unknown
    case _ => Unknown
  }

  /** The table keys of length 11. */
  function LookupLength11(s: string): IanaIfType
    requires |s| == 11
  {
    match s[7]
    case '1' =>
        if s == "regular1822" then regular1822 else Unknown
    case '2' =>
        if s == "iso88022llc" then iso88022llc else Unknown
    case '5' =>
        if s == "iso88025Dtr" then iso88025Dtr else Unknown
    case '6' =>
        if s == "iso88026Man" then iso88026Man else Unknown
    case 'I' =>
        if s == "primaryISDN" then primaryISDN else Unknown
    case 'e' => (
        match s[0]
        case 'f' =>
            if s == "fastEtherFX" then fastEtherFX else Unknown
        case 'v' =>
            if s == "voiceOverIp" then voiceOverIp else Unknown
        case _ => Unknown
      )
    case 'n' => (
        match s[0]
        case 'a' =>
            if s == "atmVciEndPt" then atmVciEndPt else Unknown
        case 'f' =>
            if s == "frDlciEndPt" then frDlciEndPt else Unknown
        case _ => Unknown
      )
    case 'p' =>
        if s == "propBWAp2Mp" then propBWAp2Mp else Unknown
    case 't' =>
        if s == "propVirtual" then propVirtual else Unknown
    case _ => Unknown
  }

  /** The table keys of length 12. */
  function LookupLength12(s: string): IanaIfType
    requires |s| == 12
  {
    match s[0]
    case 'a' =>
        if s == "a12MppSwitch" then a12MppSwitch else Unknown
    case 'c' => (
        match s[1]
        case 'b' =>
            if s == "cblVectaStar" then cblVectaStar else Unknown
        case 'i' =>
            if s == "ciscoISLvlan" then ciscoISLvlan else Unknown
        case _ => Unknown
      )
    case 'd' => (
        match s[11]
        case 'f' =>
            if s == "docsCableNdf" then docsCableNdf else Unknown
        case 'r' =>
            if s == "docsCableNdr" then docsCableNdr else Unknown
        case _ => Unknown
      )
    case 'f' =>
        if s == "fibreChannel" then fibreChannel else Unknown
    case 'h' =>
        if s == "hyperchannel" then hyperchannel else Unknown
    case 'm' =>
        if s == "mocaVersion1" then mocaVersion1 else Unknown
    case 's' =>
        if s == "stackToStack" then stackToStack else Unknown
    case 'v' => (
        match s[5]
        case 'F' =>
            if s == "voiceFGDEANA" then voiceFGDEANA else Unknown
        case 'O' =>
            if s == "voiceOverAtm" then voiceOverAtm else Unknown
        case _ => Unknown
      )
    case 'x' => (
        match s[1]
        case '2' =>
            if s == "x25huntGroup" then x25huntGroup else Unknown
        case 'b' =>
            if s == "xboxWireless" then xboxWireless else Unknown
        case _ => Unknown
      )
    case _ => Unknown
  }

  /** The table keys of length 13. */
  function LookupLength13(s: string): IanaIfType
    requires |s| == 13
  {
    match s[7]
    case '1' => (
        match s[0]
        case 'i' =>
            if s == "ieee80216WMAN" then ieee80216WMAN else Unknown
        case 'p' =>
            if s == "proteon10Mbit" then proteon10Mbit else Unknown
        case _ => Unknown
      )
    case '3' =>
        if s == "ieee8023adLag" then ieee8023adLag else Unknown
    case '5' =>
        if s == "iso88025Fiber" then iso88025Fiber else Unknown
    case '8' =>
        if s == "proteon80Mbit" then proteon80Mbit else Unknown
    case 'a' =>
        if s == "ibm370parChan" then ibm370parChan else Unknown
    case 'i' =>
        if s == "vmwareNicTeam" then vmwareNicTeam else Unknown
    case 'l' =>
        if s == "frameRelayMPI" then frameRelayMPI else Unknown
    case 'n' =>
        if s == "mpegTransport" then mpegTransport else Unknown
    case 'r' => (
        match s[12]
        case '1' =>
            if s == "pdnEtherLoop1" then pdnEtherLoop1 else Unknown
        case '2' =>
            if s == "pdnEtherLoop2" then pdnEtherLoop2 else Unknown
        case _ => Unknown
      )
    case 't' => (
        match s[0]
        case 'c' =>
            if s == "compositeLink" then compositeLink else Unknown
        case 'e' =>
            if s == "ethernet3Mbit" then ethernet3Mbit else Unknown
        case _ => Unknown
      )
    case _ => Unknown
  }

  /** The table keys of length 14. */
  function LookupLength14(s: string): IanaIfType
    requires |s| == 14
  {
    match s[5]
    case '0' => (
        match s[1]
        case 'e' =>
            if s == "ieee8021axDrni" then ieee8021axDrni else Unknown
        case 's' =>
            if s == "iso88023Csmacd" then iso88023Csmacd else Unknown
        case _ => Unknown
      )
    case 'I' =>
        if s == "hippiInterface" then hippiInterface else Unknown
    case 'M' =>
        if s == "frf16MfrBundle" then frf16MfrBundle else Unknown
    case 'O' =>
        if s == "voiceOverCable" then voiceOverCable else Unknown
    case 'a' => (
        match s[0]
        case 'h' =>
            if s == "h323Gatekeeper" then h323Gatekeeper else Unknown
        case 'o' =>
            if s == "opticalChannel" then opticalChannel else Unknown
        case _ => Unknown
      )
    case 'c' => (
        match s[6]
        case 'M' =>
            if s == "dvbRccMacLayer" then dvbRccMacLayer else Unknown
        case 'U' =>
            if s == "dvbRccUpstream" then dvbRccUpstream else Unknown
        case _ => Unknown
      )
    case 'n' =>
        if s == "ethernetCsmacd" then ethernetCsmacd else Unknown
    case 'p' =>
        if s == "capwapDot11Bss" then capwapDot11Bss else Unknown
    case 's' =>
        if s == "dvbRcsMacLayer" then dvbRcsMacLayer else Unknown
    case _ => Unknown
  }

  /** The table keys of length 15. */
  function LookupLength15(s: string): IanaIfType
    requires |s| == 15
  {
    match s[4]
    case '8' =>
        if s == "iso88025CRFPInt" then iso88025CRFPInt else Unknown
    case 'M' =>
        if s == "propMultiplexor" then propMultiplexor else Unknown
    case 'W' =>
        if s == "propWirelessP2P" then propWirelessP2P else Unknown
    case 'a' =>
        if s == "mediaMailOverIp" then mediaMailOverIp else Unknown
    case 'b' =>
        if s == "gigabitEthernet" then gigabitEthernet else Unknown
    case 'l' =>
        if s == "actelisMetaLOOP" then actelisMetaLOOP else Unknown
    case 'u' =>
        if s == "atmSubInterface" then atmSubInterface else Unknown
    case _ => Unknown
  }

  /** The table keys of length 16. */
  function LookupLength16(s: string): IanaIfType
    requires |s| == 16
  {
    match s[2]
    case 'b' =>
        if s == "dvbRccDownstream" then dvbRccDownstream else Unknown
    case 'e' =>
        if s == "ieee19061nanocom" then ieee19061nanocom else Unknown
    case 'f' =>
        if s == "softwareLoopback" then softwareLoopback else Unknown
    case 'g' =>
        if s == "digitalPowerline" then digitalPowerline else Unknown
    case 'o' =>
        if s == "iso88024TokenBus" then iso88024TokenBus else Unknown
    case 'r' =>
        if s == "virtualIpAddress" then virtualIpAddress else Unknown
    case 't' =>
        if s == "opticalTransport" then opticalTransport else Unknown
    case 'w' =>
        if s == "vmwareVirtualNic" then vmwareVirtualNic else Unknown
    case _ => Unknown
  }

  /** The table keys of length 17. */
  function LookupLength17(s: string): IanaIfType
    requires |s| == 17
  {
    match s[4]
    case '8' =>
        if s == "iso88025TokenRing" then iso88025TokenRing else Unknown
    case 'C' => (
        match s[9]
        case 'M' =>
            if s == "docsCableMaclayer" then docsCableMaclayer else Unknown
        case 'U' =>
            if s == "docsCableUpstream" then docsCableUpstream else Unknown
        case _ => Unknown
      )
    case 'O' =>
        if s == "docsOfdmaUpstream" then docsOfdmaUpstream else Unknown
    case 'e' =>
        if s == "frameRelayService" then frameRelayService else Unknown
    case 'i' =>
        if s == "aviciOpticalEther" then aviciOpticalEther else Unknown
    case _ => Unknown
  }

  /** The table keys of length 18. */
  function LookupLength18(s: string): IanaIfType
    requires |s| == 18
  {
    match s[3]
    case 'E' => (
        match s[7]
        case 'L' =>
            if s == "aluEponLogicalLink" then aluEponLogicalLink else Unknown
        case 'P' =>
            if s == "aluEponPhysicalUni" then aluEponPhysicalUni else Unknown
        case _ => Unknown
      )
    case 'G' =>
        if s == "aluGponPhysicalUni" then aluGponPhysicalUni else Unknown
    case 'M' =>
        if s == "pppMultilinkBundle" then pppMultilinkBundle else Unknown
    case 'S' =>
        if s == "macSecControlledIF" then macSecControlledIF else Unknown
    case 's' =>
        if s == "docsOfdmDownstream" then docsOfdmDownstream else Unknown
    case 'w' =>
        if s == "capwapDot11Profile" then capwapDot11Profile else Unknown
    case _ => Unknown
  }

  /** The table keys of length 19. */
  function LookupLength19(s: string): IanaIfType
    requires |s| == 19
  {
    match s[0]
    case 'b' =>
        if s == "bgppolicyaccounting" then bgppolicyaccounting else Unknown
    case 'd' =>
        if s == "docsCableDownstream" then docsCableDownstream else Unknown
    case 'o' =>
        if s == "opticalChannelGroup" then opticalChannelGroup else Unknown
    case 'v' =>
        if s == "voiceOverFrameRelay" then voiceOverFrameRelay else Unknown
    case _ => Unknown
  }

  /** The table keys of length 20. */
  function LookupLength20(s: string): IanaIfType
    requires |s| == 20
  {
    match s[0]
    case 'm' =>
        if s == "macSecUncontrolledIF" then macSecUncontrolledIF else Unknown
    case 's' =>
        if s == "sonetOverheadChannel" then sonetOverheadChannel else Unknown
    case _ => Unknown
  }

  /** The table keys of length 21. */
  function LookupLength21(s: string): IanaIfType
    requires |s| == 21
  {
    match s[2]
    case 'b' =>
        if s == "cableDownstreamRfPort" then cableDownstreamRfPort else Unknown
    case 'p' =>
        if s == "capwapWtpVirtualRadio" then capwapWtpVirtualRadio else Unknown
    case _ => Unknown
  }

  /** The table keys of length 22. */
  function LookupLength22(s: string): IanaIfType
    requires |s| == 22
  {
    match s[17]
    case 'D' =>
        if s == "docsCableScte55d2DsOob" then docsCableScte55d2DsOob else Unknown
    case 'U' =>
        if s == "docsCableScte55d2UsOob" then docsCableScte55d2UsOob else Unknown
    case 'e' =>
        if s == "propPointToPointSerial" then propPointToPointSerial else Unknown
    case 'n' =>
        if s == "frameRelayInterconnect" then frameRelayInterconnect else Unknown
    case _ => Unknown
  }

  /** The table keys of length 23. */
  function LookupLength23(s: string): IanaIfType
    requires |s| == 23
  {
    match s[18]
    case 'e' =>
        if s == "docsCableScte55d1RetOob" then docsCableScte55d1RetOob else Unknown
    case 'f' =>
        if s == "docsCableUpstreamRfPort" then docsCableUpstreamRfPort else Unknown
    case 'w' =>
        if s == "docsCableScte55d1FwdOob" then docsCableScte55d1FwdOob else Unknown
    case _ => Unknown
  }

  /** The table keys of length 24. */
  function LookupLength24(s: string): IanaIfType
    requires |s| == 24
  {
    match s[16]
    case 'M' =>
        if s == "propDocsWirelessMaclayer" then propDocsWirelessMaclayer else Unknown
    case 'U' =>
        if s == "propDocsWirelessUpstream" then propDocsWirelessUpstream else Unknown
    case 'm' =>
        if s == "docsCableUpstreamChannel" then docsCableUpstreamChannel else Unknown
    case 'w' =>
        if s == "docsCableMCmtsDownstream" then docsCableMCmtsDownstream else Unknown
    case _ => Unknown
  }

  /** The table keys of length 26. */
  function LookupLength26(s: string): IanaIfType
    requires |s| == 26
  {
    match s[0]
    case 'm' =>
        if s == "microwaveRadioLinkTerminal" then microwaveRadioLinkTerminal else Unknown
    case 'p' =>
        if s == "propDocsWirelessDownstream" then propDocsWirelessDownstream else Unknown
    case _ => Unknown
  }

  /** The table keys of length 27. */
  function LookupLength27(s: string): IanaIfType
    requires |s| == 27
  {
    if s == "microwaveCarrierTermination" then microwaveCarrierTermination else Unknown
  }

  /** The table keys of length 29. */
  function LookupLength29(s: string): IanaIfType
    requires |s| == 29
  {
    if s == "digitalWrapperOverheadChannel" then digitalWrapperOverheadChannel else Unknown
  }

  /** fromString inverts toString on every enumerator, `Unknown` included:
      "unknown" is not a key of the table. */
  lemma {:induction false} FromToString(t: IanaIfType)
    ensures FromString(ToString(t)) == t
  {
    if t == Unknown {
      assert ToString(t) == "unknown";
    } else {
      if t < 151 {
        if t < 76 {
          if t < 36 {
            if t < 16 {
              if t < 6 {
                FromToStringFrom1(t);
              } else {
                if t < 11 {
                  FromToStringFrom6(t);
                } else {
                  FromToStringFrom11(t);
                }
              }
            } else {
              if t < 26 {
                if t < 21 {
                  FromToStringFrom16(t);
                } else {
                  FromToStringFrom21(t);
                }
              } else {
                if t < 31 {
                  FromToStringFrom26(t);
                } else {
                  FromToStringFrom31(t);
                }
              }
            }
          } else {
            if t < 56 {
              if t < 46 {
                if t < 41 {
                  FromToStringFrom36(t);
                } else {
                  FromToStringFrom41(t);
                }
              } else {
                if t < 51 {
                  FromToStringFrom46(t);
                } else {
                  FromToStringFrom51(t);
                }
              }
            } else {
              if t < 66 {
                if t < 61 {
                  FromToStringFrom56(t);
                } else {
                  FromToStringFrom61(t);
                }
              } else {
                if t < 71 {
                  FromToStringFrom66(t);
                } else {
                  FromToStringFrom71(t);
                }
              }
            }
          }
        } else {
          if t < 111 {
            if t < 91 {
              if t < 81 {
                FromToStringFrom76(t);
              } else {
                if t < 86 {
                  FromToStringFrom81(t);
                } else {
                  FromToStringFrom86(t);
                }
              }
            } else {
              if t < 101 {
                if t < 96 {
                  FromToStringFrom91(t);
                } else {
                  FromToStringFrom96(t);
                }
              } else {
                if t < 106 {
                  FromToStringFrom101(t);
                } else {
                  FromToStringFrom106(t);
                }
              }
            }
          } else {
            if t < 131 {
              if t < 121 {
                if t < 116 {
                  FromToStringFrom111(t);
                } else {
                  FromToStringFrom116(t);
                }
              } else {
                if t < 126 {
                  FromToStringFrom121(t);
                } else {
                  FromToStringFrom126(t);
                }
              }
            } else {
              if t < 141 {
                if t < 136 {
                  FromToStringFrom131(t);
                } else {
                  FromToStringFrom136(t);
                }
              } else {
                if t < 146 {
                  FromToStringFrom141(t);
                } else {
                  FromToStringFrom146(t);
                }
              }
            }
          }
        }
      } else {
        if t < 226 {
          if t < 186 {
            if t < 166 {
              if t < 156 {
                FromToStringFrom151(t);
              } else {
                if t < 161 {
                  FromToStringFrom156(t);
                } else {
                  FromToStringFrom161(t);
                }
              }
            } else {
              if t < 176 {
                if t < 171 {
                  FromToStringFrom166(t);
                } else {
                  FromToStringFrom171(t);
                }
              } else {
                if t < 181 {
                  FromToStringFrom176(t);
                } else {
                  FromToStringFrom181(t);
                }
              }
            }
          } else {
            if t < 206 {
              if t < 196 {
                if t < 191 {
                  FromToStringFrom186(t);
                } else {
                  FromToStringFrom191(t);
                }
              } else {
                if t < 201 {
                  FromToStringFrom196(t);
                } else {
                  FromToStringFrom201(t);
                }
              }
            } else {
              if t < 216 {
                if t < 211 {
                  FromToStringFrom206(t);
                } else {
                  FromToStringFrom211(t);
                }
              } else {
                if t < 221 {
                  FromToStringFrom216(t);
                } else {
                  FromToStringFrom221(t);
                }
              }
            }
          }
        } else {
          if t < 261 {
            if t < 241 {
              if t < 231 {
                FromToStringFrom226(t);
              } else {
                if t < 236 {
                  FromToStringFrom231(t);
                } else {
                  FromToStringFrom236(t);
                }
              }
            } else {
              if t < 251 {
                if t < 246 {
                  FromToStringFrom241(t);
                } else {
                  FromToStringFrom246(t);
                }
              } else {
                if t < 256 {
                  FromToStringFrom251(t);
                } else {
                  FromToStringFrom256(t);
                }
              }
            }
          } else {
            if t < 281 {
              if t < 271 {
                if t < 266 {
                  FromToStringFrom261(t);
                } else {
                  FromToStringFrom266(t);
                }
              } else {
                if t < 276 {
                  FromToStringFrom271(t);
                } else {
                  FromToStringFrom276(t);
                }
              }
            } else {
              if t < 291 {
                if t < 286 {
                  FromToStringFrom281(t);
                } else {
                  FromToStringFrom286(t);
                }
              } else {
                if t < 296 {
                  FromToStringFrom291(t);
                } else {
                  FromToStringFrom296(t);
                }
              }
            }
          }
        }
      }
    }
  }

  lemma FromToStringFrom1(t: IanaIfType)
    requires 1 <= t <= 5
    ensures FromString(ToString(t)) == t
  {
    if t == 1 { } else if t == 2 { } else if t == 3 { } else if t == 4 { }
  }

  lemma FromToStringFrom6(t: IanaIfType)
    requires 6 <= t <= 10
    ensures FromString(ToString(t)) == t
  {
    if t == 6 { } else if t == 7 { } else if t == 8 { } else if t == 9 { }
  }

  lemma FromToStringFrom11(t: IanaIfType)
    requires 11 <= t <= 15
    ensures FromString(ToString(t)) == t
  {
    if t == 11 { } else if t == 12 { } else if t == 13 { } else if t == 14 { }
  }

  lemma FromToStringFrom16(t: IanaIfType)
    requires 16 <= t <= 20
    ensures FromString(ToString(t)) == t
  {
    if t == 16 { } else if t == 17 { } else if t == 18 { } else if t == 19 { }
  }

  lemma FromToStringFrom21(t: IanaIfType)
    requires 21 <= t <= 25
    ensures FromString(ToString(t)) == t
  {
    if t == 21 { } else if t == 22 { } else if t == 23 { } else if t == 24 { }
  }

  lemma FromToStringFrom26(t: IanaIfType)
    requires 26 <= t <= 30
    ensures FromString(ToString(t)) == t
  {
    if t == 26 { } else if t == 27 { } else if t == 28 { } else if t == 29 { }
  }

  lemma FromToStringFrom31(t: IanaIfType)
    requires 31 <= t <= 35
    ensures FromString(ToString(t)) == t
  {
    if t == 31 { } else if t == 32 { } else if t == 33 { } else if t == 34 { }
  }

  lemma FromToStringFrom36(t: IanaIfType)
    requires 36 <= t <= 40
    ensures FromString(ToString(t)) == t
  {
    if t == 36 { } else if t == 37 { } else if t == 38 { } else if t == 39 { }
  }

  lemma FromToStringFrom41(t: IanaIfType)
    requires 41 <= t <= 45
    ensures FromString(ToString(t)) == t
  {
    if t == 41 { } else if t == 42 { } else if t == 43 { } else if t == 44 { }
  }

  lemma FromToStringFrom46(t: IanaIfType)
    requires 46 <= t <= 50
    ensures FromString(ToString(t)) == t
  {
    if t == 46 { } else if t == 47 { } else if t == 48 { } else if t == 49 { }
  }

  lemma FromToStringFrom51(t: IanaIfType)
    requires 51 <= t <= 55
    ensures FromString(ToString(t)) == t
  {
    if t == 51 { } else if t == 52 { } else if t == 53 { } else if t == 54 { }
  }

  lemma FromToStringFrom56(t: IanaIfType)
    requires 56 <= t <= 60
    ensures FromString(ToString(t)) == t
  {
    if t == 56 { } else if t == 57 { } else if t == 58 { } else if t == 59 { }
  }

  lemma FromToStringFrom61(t: IanaIfType)
    requires 61 <= t <= 65
    ensures FromString(ToString(t)) == t
  {
    if t == 61 { } else if t == 62 { } else if t == 63 { } else if t == 64 { }
  }

  lemma FromToStringFrom66(t: IanaIfType)
    requires 66 <= t <= 70
    ensures FromString(ToString(t)) == t
  {
    if t == 66 { } else if t == 67 { } else if t == 68 { } else if t == 69 { }
  }

  lemma FromToStringFrom71(t: IanaIfType)
    requires 71 <= t <= 75
    ensures FromString(ToString(t)) == t
  {
    if t == 71 { } else if t == 72 { } else if t == 73 { } else if t == 74 { }
  }

  lemma FromToStringFrom76(t: IanaIfType)
    requires 76 <= t <= 80
    ensures FromString(ToString(t)) == t
  {
    if t == 76 { } else if t == 77 { } else if t == 78 { } else if t == 79 { }
  }

  lemma FromToStringFrom81(t: IanaIfType)
    requires 81 <= t <= 85
    ensures FromString(ToString(t)) == t
  {
    if t == 81 { } else if t == 82 { } else if t == 83 { } else if t == 84 { }
  }

  lemma FromToStringFrom86(t: IanaIfType)
    requires 86 <= t <= 90
    ensures FromString(ToString(t)) == t
  {
    if t == 86 { } else if t == 87 { } else if t == 88 { } else if t == 89 { }
  }

  lemma FromToStringFrom91(t: IanaIfType)
    requires 91 <= t <= 95
    ensures FromString(ToString(t)) == t
  {
    if t == 91 { } else if t == 92 { } else if t == 93 { } else if t == 94 { }
  }

  lemma FromToStringFrom96(t: IanaIfType)
    requires 96 <= t <= 100
    ensures FromString(ToString(t)) == t
  {
    if t == 96 { } else if t == 97 { } else if t == 98 { } else if t == 99 { }
  }

  lemma FromToStringFrom101(t: IanaIfType)
    requires 101 <= t <= 105
    ensures FromString(ToString(t)) == t
  {
    if t == 101 { } else if t == 102 { } else if t == 103 { } else if t == 104 { }
  }

  lemma FromToStringFrom106(t: IanaIfType)
    requires 106 <= t <= 110
    ensures FromString(ToString(t)) == t
  {
    if t == 106 { } else if t == 107 { } else if t == 108 { } else if t == 109 { }
  }

  lemma FromToStringFrom111(t: IanaIfType)
    requires 111 <= t <= 115
    ensures FromString(ToString(t)) == t
  {
    if t == 111 { } else if t == 112 { } else if t == 113 { } else if t == 114 { }
  }

  lemma FromToStringFrom116(t: IanaIfType)
    requires 116 <= t <= 120
    ensures FromString(ToString(t)) == t
  {
    if t == 116 { } else if t == 117 { } else if t == 118 { } else if t == 119 { }
  }

  lemma FromToStringFrom121(t: IanaIfType)
    requires 121 <= t <= 125
    ensures FromString(ToString(t)) == t
  {
    if t == 121 { } else if t == 122 { } else if t == 123 { } else if t == 124 { }
  }

  lemma FromToStringFrom126(t: IanaIfType)
    requires 126 <= t <= 130
    ensures FromString(ToString(t)) == t
  {
    if t == 126 { } else if t == 127 { } else if t == 128 { } else if t == 129 { }
  }

  lemma FromToStringFrom131(t: IanaIfType)
    requires 131 <= t <= 135
    ensures FromString(ToString(t)) == t
  {
    if t == 131 { } else if t == 132 { } else if t == 133 { } else if t == 134 { }
  }

  lemma FromToStringFrom136(t: IanaIfType)
    requires 136 <= t <= 140
    ensures FromString(ToString(t)) == t
  {
    if t == 136 { } else if t == 137 { } else if t == 138 { } else if t == 139 { }
  }

  lemma FromToStringFrom141(t: IanaIfType)
    requires 141 <= t <= 145
    ensures FromString(ToString(t)) == t
  {
    if t == 141 { } else if t == 142 { } else if t == 143 { } else if t == 144 { }
  }

  lemma FromToStringFrom146(t: IanaIfType)
    requires 146 <= t <= 150
    ensures FromString(ToString(t)) == t
  {
    if t == 146 { } else if t == 147 { } else if t == 148 { } else if t == 149 { }
  }

  lemma FromToStringFrom151(t: IanaIfType)
    requires 151 <= t <= 155
    ensures FromString(ToString(t)) == t
  {
    if t == 151 { } else if t == 152 { } else if t == 153 { } else if t == 154 { }
  }

  lemma FromToStringFrom156(t: IanaIfType)
    requires 156 <= t <= 160
    ensures FromString(ToString(t)) == t
  {
    if t == 156 { } else if t == 157 { } else if t == 158 { } else if t == 159 { }
  }

  lemma FromToStringFrom161(t: IanaIfType)
    requires 161 <= t <= 165
    ensures FromString(ToString(t)) == t
  {
    if t == 161 { } else if t == 162 { } else if t == 163 { } else if t == 164 { }
  }

  lemma FromToStringFrom166(t: IanaIfType)
    requires 166 <= t <= 170
    ensures FromString(ToString(t)) == t
  {
    if t == 166 { } else if t == 167 { } else if t == 168 { } else if t == 169 { }
  }

  lemma FromToStringFrom171(t: IanaIfType)
    requires 171 <= t <= 175
    ensures FromString(ToString(t)) == t
  {
    if t == 171 { } else if t == 172 { } else if t == 173 { } else if t == 174 { }
  }

  lemma FromToStringFrom176(t: IanaIfType)
    requires 176 <= t <= 180
    ensures FromString(ToString(t)) == t
  {
    if t == 176 { } else if t == 177 { } else if t == 178 { } else if t == 179 { }
  }

  lemma FromToStringFrom181(t: IanaIfType)
    requires 181 <= t <= 185
    ensures FromString(ToString(t)) == t
  {
    if t == 181 { } else if t == 182 { } else if t == 183 { } else if t == 184 { }
  }

  lemma FromToStringFrom186(t: IanaIfType)
    requires 186 <= t <= 190
    ensures FromString(ToString(t)) == t
  {
    if t == 186 { } else if t == 187 { } else if t == 188 { } else if t == 189 { }
  }

  lemma FromToStringFrom191(t: IanaIfType)
    requires 191 <= t <= 195
    ensures FromString(ToString(t)) == t
  {
    if t == 191 { } else if t == 192 { } else if t == 193 { } else if t == 194 { }
  }

  lemma FromToStringFrom196(t: IanaIfType)
    requires 196 <= t <= 200
    ensures FromString(ToString(t)) == t
  {
    if t == 196 { } else if t == 197 { } else if t == 198 { } else if t == 199 { }
  }

  lemma FromToStringFrom201(t: IanaIfType)
    requires 201 <= t <= 205
    ensures FromString(ToString(t)) == t
  {
    if t == 201 { } else if t == 202 { } else if t == 203 { } else if t == 204 { }
  }

  lemma FromToStringFrom206(t: IanaIfType)
    requires 206 <= t <= 210
    ensures FromString(ToString(t)) == t
  {
    if t == 206 { } else if t == 207 { } else if t == 208 { } else if t == 209 { }
  }

  lemma FromToStringFrom211(t: IanaIfType)
    requires 211 <= t <= 215
    ensures FromString(ToString(t)) == t
  {
    if t == 211 { } else if t == 212 { } else if t == 213 { } else if t == 214 { }
  }

  lemma FromToStringFrom216(t: IanaIfType)
    requires 216 <= t <= 220
    ensures FromString(ToString(t)) == t
  {
    if t == 216 { } else if t == 217 { } else if t == 218 { } else if t == 219 { }
  }

  lemma FromToStringFrom221(t: IanaIfType)
    requires 221 <= t <= 225
    ensures FromString(ToString(t)) == t
  {
    if t == 221 { } else if t == 222 { } else if t == 223 { } else if t == 224 { }
  }

  lemma FromToStringFrom226(t: IanaIfType)
    requires 226 <= t <= 230
    ensures FromString(ToString(t)) == t
  {
    if t == 226 { } else if t == 227 { } else if t == 228 { } else if t == 229 { }
  }

  lemma FromToStringFrom231(t: IanaIfType)
    requires 231 <= t <= 235
    ensures FromString(ToString(t)) == t
  {
    if t == 231 { } else if t == 232 { } else if t == 233 { } else if t == 234 { }
  }

  lemma FromToStringFrom236(t: IanaIfType)
    requires 236 <= t <= 240
    ensures FromString(ToString(t)) == t
  {
    if t == 236 { } else if t == 237 { } else if t == 238 { } else if t == 239 { }
  }

  lemma FromToStringFrom241(t: IanaIfType)
    requires 241 <= t <= 245
    ensures FromString(ToString(t)) == t
  {
    if t == 241 { } else if t == 242 { } else if t == 243 { } else if t == 244 { }
  }

  lemma FromToStringFrom246(t: IanaIfType)
    requires 246 <= t <= 250
    ensures FromString(ToString(t)) == t
  {
    if t == 246 { } else if t == 247 { } else if t == 248 { } else if t == 249 { }
  }

  lemma FromToStringFrom251(t: IanaIfType)
    requires 251 <= t <= 255
    ensures FromString(ToString(t)) == t
  {
    if t == 251 { } else if t == 252 { } else if t == 253 { } else if t == 254 { }
  }

  lemma FromToStringFrom256(t: IanaIfType)
    requires 256 <= t <= 260
    ensures FromString(ToString(t)) == t
  {
    if t == 256 { } else if t == 257 { } else if t == 258 { } else if t == 259 { }
  }

  lemma FromToStringFrom261(t: IanaIfType)
    requires 261 <= t <= 265
    ensures FromString(ToString(t)) == t
  {
    if t == 261 { } else if t == 262 { } else if t == 263 { } else if t == 264 { }
  }

  lemma FromToStringFrom266(t: IanaIfType)
    requires 266 <= t <= 270
    ensures FromString(ToString(t)) == t
  {
    if t == 266 { } else if t == 267 { } else if t == 268 { } else if t == 269 { }
  }

  lemma FromToStringFrom271(t: IanaIfType)
    requires 271 <= t <= 275
    ensures FromString(ToString(t)) == t
  {
    if t == 271 { } else if t == 272 { } else if t == 273 { } else if t == 274 { }
  }

  lemma FromToStringFrom276(t: IanaIfType)
    requires 276 <= t <= 280
    ensures FromString(ToString(t)) == t
  {
    if t == 276 { } else if t == 277 { } else if t == 278 { } else if t == 279 { }
  }

  lemma FromToStringFrom281(t: IanaIfType)
    requires 281 <= t <= 285
    ensures FromString(ToString(t)) == t
  {
    if t == 281 { } else if t == 282 { } else if t == 283 { } else if t == 284 { }
  }

  lemma FromToStringFrom286(t: IanaIfType)
    requires 286 <= t <= 290
    ensures FromString(ToString(t)) == t
  {
    if t == 286 { } else if t == 287 { } else if t == 288 { } else if t == 289 { }
  }

  lemma FromToStringFrom291(t: IanaIfType)
    requires 291 <= t <= 295
    ensures FromString(ToString(t)) == t
  {
    if t == 291 { } else if t == 292 { } else if t == 293 { } else if t == 294 { }
  }

  lemma FromToStringFrom296(t: IanaIfType)
    requires 296 <= t <= 298
    ensures FromString(ToString(t)) == t
  {
    if t == 296 { } else if t == 297 { }
  }

  /** A result of fromString other than `Unknown` names its own key: toString
      gives back exactly the string that was looked up. */
  lemma {:induction false} ToFromString(s: string)
    requires FromString(s) != Unknown
    ensures ToString(FromString(s)) == s
  {
    match |s|
    case 2 => ToFromStringLength2(s);
    case 3 => ToFromStringLength3(s);
    case 4 => ToFromStringLength4(s);
    case 5 => ToFromStringLength5(s);
    case 6 => ToFromStringLength6(s);
    case 7 => ToFromStringLength7(s);
    case 8 => ToFromStringLength8(s);
    case 9 => ToFromStringLength9(s);
    case 10 => ToFromStringLength10(s);
    case 11 => ToFromStringLength11(s);
    case 12 => ToFromStringLength12(s);
    case 13 => ToFromStringLength13(s);
    case 14 => ToFromStringLength14(s);
    case 15 => ToFromStringLength15(s);
    case 16 => ToFromStringLength16(s);
    case 17 => ToFromStringLength17(s);
    case 18 => ToFromStringLength18(s);
    case 19 => ToFromStringLength19(s);
    case 20 => ToFromStringLength20(s);
    case 21 => ToFromStringLength21(s);
    case 22 => ToFromStringLength22(s);
    case 23 => ToFromStringLength23(s);
    case 24 => ToFromStringLength24(s);
    case 26 => ToFromStringLength26(s);
    case 27 => ToFromStringLength27(s);
    case 29 => ToFromStringLength29(s);
  }

  lemma ToFromStringLength2(s: string)
    requires |s| == 2 && LookupLength2(s) != Unknown
    ensures ToString(LookupLength2(s)) == s
  {
    match s[0] {
      case 'e' =>
        assert s == "e1";
      case 'i' =>
        assert s == "ip";
      case _ =>
        assert false;
    }
  }

  lemma ToFromStringLength3(s: string)
    requires |s| == 3 && LookupLength3(s) != Unknown
    ensures ToString(LookupLength3(s)) == s
  {
    match s[0] {
      case 'b' =>
        assert s == "bsc";
      case 'c' =>
        match s[1] {
          case 'e' =>
            assert s == "ces";
          case 'n' =>
            assert s == "cnr";
          case _ =>
            assert false;
        }
      case 'd' =>
        match s[2] {
          case '0' =>
            assert s == "ds0";
          case '1' =>
            assert s == "ds1";
          case '3' =>
            assert s == "ds3";
          case 'm' =>
            assert s == "dtm";
          case 'n' =>
            assert s == "dcn";
          case _ =>
            assert false;
        }
      case 'e' =>
        assert s == "eon";
      case 'g' =>
        match s[1] {
          case 'f' =>
            assert s == "gfp";
          case 'h' =>
            assert s == "ghn";
          case 't' =>
            assert s == "gtp";
          case _ =>
            assert false;
        }
      case 'i' =>
        assert s == "imt";
      case 'l' =>
        assert s == "lmp";
      case 'm' =>
        match s[1] {
          case 'p' =>
            assert s == "mpc";
          case 'v' =>
            assert s == "mvl";
          case _ =>
            assert false;
        }
      case 'p' =>
        match s[1] {
          case 'i' =>
            assert s == "pip";
          case 'l' =>
            assert s == "plc";
          case 'o' =>
            assert s == "pos";
          case 'p' =>
            assert s == "ppp";
          case 't' =>
            assert s == "ptm";
          case _ =>
            assert false;
        }
      case 'q' =>
        assert s == "qam";
      case 'r' =>
        match s[1] {
          case 'o' =>
            assert s == "roe";
          case 'p' =>
            assert s == "rpr";
          case _ =>
            assert false;
        }
      case 's' =>
        match s[1] {
          case 'i' =>
            assert s == "sip";
          case 'r' =>
            assert s == "srp";
          case _ =>
            assert false;
        }
      case 'u' =>
        assert s == "usb";
      case 'v' =>
        match s[2] {
          case '1' =>
            assert s == "v11";
          case '5' =>
            assert s == "v35";
          case '6' =>
            assert s == "v36";
          case '7' =>
            assert s == "v37";
          case _ =>
            assert false;
        }
      case _ =>
        assert false;
    }
  }

  lemma ToFromStringLength4(s: string)
    requires |s| == 4 && LookupLength4(s) != Unknown
    ensures ToString(LookupLength4(s)) == s
  {
    match s[0] {
      case 'a' =>
        match s[1] {
          case 'a' =>
            match s[3] {
              case '2' =>
                assert s == "aal2";
              case '5' =>
                assert s == "aal5";
              case _ =>
                assert false;
            }
          case 'd' =>
            assert s == "adsl";
          case 'r' =>
            assert s == "arap";
          case 'x' =>
            assert s == "ax25";
          case _ =>
            assert false;
        }
      case 'b' =>
        assert s == "bits";
      case 'c' =>
        assert s == "cpri";
      case 'd' =>
        assert s == "dlsw";
      case 'f' =>
        match s[1] {
          case 'a' =>
            assert s == "fast";
          case 'd' =>
            assert s == "fddi";
          case _ =>
            assert false;
        }
      case 'g' =>
        assert s == "gpon";
      case 'h' =>
        match s[1] {
          case 'd' =>
            assert s == "hdlc";
          case 's' =>
            assert s == "hssi";
          case _ =>
            assert false;
        }
      case 'i' =>
        match s[2] {
          case 'a' =>
            assert s == "ilan";
          case 'd' =>
            assert s == "isdn";
          case 's' =>
            assert s == "idsl";
          case 'u' =>
            assert s == "isup";
          case _ =>
            assert false;
        }
      case 'l' =>
        match s[3] {
          case 'b' =>
            assert s == "lapb";
          case 'd' =>
            assert s == "lapd";
          case 'f' =>
            assert s == "lapf";
          case _ =>
            assert false;
        }
      case 'm' =>
        assert s == "mpls";
      case 'n' =>
        match s[1] {
          case 'f' =>
            assert s == "nfas";
          case 's' =>
            assert s == "nsip";
          case _ =>
            assert false;
        }
      case 'o' =>
        assert s == "omni";
      case 'p' =>
        assert s == "para";
      case 'q' =>
        assert s == "qllc";
      case 'r' =>
        assert s == "rsrb";
      case 's' =>
        match s[2] {
          case 'c' =>
            assert s == "sdci";
          case 'i' =>
            assert s == "slip";
          case 'l' =>
            assert s == "sdlc";
          case 's' =>
            assert s == "sdsl";
          case _ =>
            assert false;
        }
      case 't' =>
        assert s == "tdlc";
      case 'v' =>
        assert s == "vdsl";
      case 'x' =>
        assert s == "x213";
      case _ =>
        assert false;
    }
  }

  lemma ToFromStringLength5(s: string)
    requires |s| == 5 && LookupLength5(s) != Unknown
    ensures ToString(LookupLength5(s)) == s
  {
    match s[0] {
      case 'a' =>
        match s[1] {
          case 'd' =>
            assert s == "adsl2";
          case 's' =>
            assert s == "async";
          case _ =>
            assert false;
        }
      case 'e' =>
        match s[1] {
          case 'p' =>
            assert s == "eplrs";
          case 's' =>
            assert s == "escon";
          case _ =>
            assert false;
        }
      case 'g' =>
        match s[4] {
          case '1' =>
            assert s == "g9981";
          case '2' =>
            assert s == "g9982";
          case '3' =>
            assert s == "g9983";
          case 't' =>
            assert s == "gfast";
          case _ =>
            assert false;
        }
      case 'h' =>
        match s[1] {
          case 'd' =>
            assert s == "hdsl2";
          case 'i' =>
            assert s == "hippi";
          case _ =>
            assert false;
        }
      case 'i' =>
        match s[4] {
          case 's' =>
            assert s == "isdns";
          case 'u' =>
            assert s == "isdnu";
          case _ =>
            assert false;
        }
      case 'm' =>
        match s[1] {
          case 'o' =>
            assert s == "modem";
          case 's' =>
            assert s == "msdsl";
          case _ =>
            assert false;
        }
      case 'o' =>
        assert s == "other";
      case 'q' =>
        assert s == "q2931";
      case 'r' =>
        match s[1] {
          case 'a' =>
            assert s == "radsl";
          case 's' =>
            assert s == "rs232";
          case _ =>
            assert false;
        }
      case 's' =>
        match s[1] {
          case 'h' =>
            assert s == "shdsl";
          case 'i' =>
            assert s == "sipTg";
          case 'o' =>
            assert s == "sonet";
          case _ =>
            assert false;
        }
      case 't' =>
        assert s == "tr008";
      case 'u' =>
        assert s == "ultra";
      case 'v' =>
        assert s == "vdsl2";
      case _ =>
        assert false;
    }
  }

  lemma ToFromStringLength6(s: string)
    requires |s| == 6 && LookupLength6(s) != Unknown
    ensures ToString(LookupLength6(s)) == s
  {
    match s[5] {
      case '2' =>
        assert s == "pon622";
      case '5' =>
        match s[0] {
          case 'd' =>
            assert s == "ddnX25";
          case 'm' =>
            assert s == "miox25";
          case 'p' =>
            assert s == "pon155";
          case _ =>
            assert false;
        }
      case 'L' =>
        assert s == "ds1FDL";
      case 'P' =>
        match s[0] {
          case 'a' =>
            assert s == "aluELP";
          case 'w' =>
            assert s == "wwanPP";
          case _ =>
            assert false;
        }
      case 'a' =>
        assert s == "atmIma";
      case 'e' =>
        match s[0] {
          case 'b' =>
            assert s == "bridge";
          case 'c' =>
            assert s == "coffee";
          case 'x' =>
            assert s == "x25ple";
          case _ =>
            assert false;
        }
      case 'g' =>
        assert s == "sipSig";
      case 'i' =>
        assert s == "atmDxi";
      case 'k' =>
        assert s == "teLink";
      case 'l' =>
        assert s == "tunnel";
      case 'm' =>
        assert s == "dvbTdm";
      case 'n' =>
        match s[0] {
          case 'i' =>
            assert s == "if-gsn";
          case 'l' =>
            assert s == "l2vlan";
          case _ =>
            assert false;
        }
      case 'p' =>
        assert s == "x25mlp";
      case 't' =>
        match s[0] {
          case 'a' =>
            assert s == "arcnet";
          case 'e' =>
            assert s == "econet";
          case _ =>
            assert false;
        }
      case 'u' =>
        match s[4] {
          case 'd' =>
            assert s == "otnOdu";
          case 't' =>
            assert s == "otnOtu";
          case _ =>
            assert false;
        }
      case _ =>
        assert false;
    }
  }

  lemma ToFromStringLength7(s: string)
    requires |s| == 7 && LookupLength7(s) != Unknown
    ensures ToString(LookupLength7(s)) == s
  {
    match s[0] {
      case 'a' =>
        match s[3] {
          case 'E' =>
            assert s == "aluEpon";
          case 'F' =>
            assert s == "atmFuni";
          case 'b' =>
            assert s == "atmbond";
          case _ =>
            assert false;
        }
      case 'c' =>
        match s[1] {
          case 'c' =>
            assert s == "cctEmul";
          case 'h' =>
            assert s == "channel";
          case _ =>
            assert false;
        }
      case 'f' =>
        assert s == "fastdsl";
      case 'h' =>
        match s[2] {
          case 'h' =>
            assert s == "hdh1822";
          case 'm' =>
            assert s == "homepna";
          case 's' =>
            assert s == "hostPad";
          case _ =>
            assert false;
        }
      case 'm' =>
        assert s == "myrinet";
      case 'o' =>
        match s[4] {
          case 'd' =>
            assert s == "otnOduc";
          case 't' =>
            match s[5] {
              case 's' =>
                assert s == "otnOtsi";
              case 'u' =>
                assert s == "otnOtuc";
              case _ =>
                assert false;
            }
          case _ =>
            assert false;
        }
      case 'p' =>
        assert s == "propAtm";
      case 'r' =>
        assert s == "rfc1483";
      case 's' =>
        match s[1] {
          case 'm' =>
            assert s == "smdsDxi";
          case 'o' =>
            assert s == "sonetVT";
          case 't' =>
            assert s == "starLan";
          case _ =>
            assert false;
        }
      case 't' =>
        assert s == "termPad";
      case 'v' =>
        assert s == "voiceEM";
      case 'w' =>
        assert s == "wwanPP2";
      case 'x' =>
        assert s == "x86Laps";
      case _ =>
        assert false;
    }
  }

  lemma ToFromStringLength8(s: string)
    requires |s| == 8 && LookupLength8(s) != Unknown
    ensures ToString(LookupLength8(s)) == s
  {
    match s[5] {
      case '3' =>
        assert s == "ieee1394";
      case 'D' =>
        match s[0] {
          case 'r' =>
            assert s == "reachDSL";
          case 'v' =>
            assert s == "voiceDID";
          case _ =>
            assert false;
        }
      case 'E' =>
        assert s == "voiceEBS";
      case 'F' =>
        match s[7] {
          case 'O' =>
            assert s == "voiceFXO";
          case 'S' =>
            assert s == "voiceFXS";
          case _ =>
            assert false;
        }
      case 'I' =>
        assert s == "gr303IDT";
      case 'M' =>
        assert s == "radioMAC";
      case 'R' =>
        assert s == "gr303RDT";
      case 'c' =>
        assert s == "smdsIcip";
      case 'd' =>
        assert s == "atmRadio";
      case 'i' =>
        match s[0] {
          case 'd' =>
            assert s == "dvbAsiIn";
          case 'f' =>
            assert s == "fcipLink";
          case _ =>
            assert false;
        }
      case 'l' =>
        assert s == "l3ipvlan";
      case 'n' =>
        assert s == "propCnls";
      case 's' =>
        assert s == "otnOtsig";
      case 't' =>
        assert s == "ipSwitch";
      case 'y' =>
        assert s == "ifPwType";
      case _ =>
        assert false;
    }
  }

  lemma ToFromStringLength9(s: string)
    requires |s| == 9 && LookupLength9(s) != Unknown
    ensures ToString(LookupLength9(s)) == s
  {
    match s[2] {
      case '0' =>
        match s[6] {
          case '2' =>
            assert s == "g703at2mb";
          case '6' =>
            assert s == "g703at64k";
          case 'd' =>
            assert s == "ds0Bundle";
          case _ =>
            assert false;
        }
      case '2' =>
        assert s == "h323Proxy";
      case 'F' =>
        match s[0] {
          case 'f' =>
            assert s == "frForward";
          case 'i' =>
            assert s == "ipForward";
          case _ =>
            assert false;
        }
      case 'O' =>
        assert s == "ipOverAtm";
      case 'S' =>
        assert s == "mfSigLink";
      case 'V' =>
        assert s == "ifVfiType";
      case 'b' =>
        assert s == "dvbAsiOut";
      case 'c' =>
        match s[0] {
          case 'l' =>
            assert s == "localTalk";
          case 'r' =>
            assert s == "rfc877x25";
          case _ =>
            assert false;
        }
      case 'e' =>
        match s[8] {
          case '1' =>
            assert s == "ieee80211";
          case '2' =>
            assert s == "ieee80212";
          case _ =>
            assert false;
        }
      case 'i' =>
        assert s == "l3ipxvlan";
      case 'n' =>
        match s[0] {
          case 'l' =>
            assert s == "linegroup";
          case 's' =>
            assert s == "sonetPath";
          case _ =>
            assert false;
        }
      case 'p' =>
        assert s == "hiperlan2";
      case 'r' =>
        assert s == "virtualTg";
      case 's' =>
        match s[0] {
          case 'a' =>
            assert s == "adsl2plus";
          case 'b' =>
            assert s == "basicISDN";
          case 'f' =>
            assert s == "fastEther";
          case _ =>
            assert false;
        }
      case 'x' =>
        assert s == "sixToFour";
      case _ =>
        assert false;
    }
  }

  lemma ToFromStringLength10(s: string)
    requires |s| == 10 && LookupLength10(s) != Unknown
    ensures ToString(LookupLength10(s)) == s
  {
    match s[1] {
      case '2' =>
        assert s == "p2pOverLan";
      case 'e' =>
        assert s == "ieee802154";
      case 'f' =>
        match s[9] {
          case '3' =>
            assert s == "aflane8023";
          case '5' =>
            assert s == "aflane8025";
          case _ =>
            assert false;
        }
      case 'l' =>
        match s[3] {
          case 'E' =>
            assert s == "aluEponOnu";
          case 'G' =>
            assert s == "aluGponOnu";
          case _ =>
            assert false;
        }
      case 'n' =>
        match s[2] {
          case 'f' =>
            assert s == "infiniband";
          case 't' =>
            assert s == "interleave";
          case _ =>
            assert false;
        }
      case 'o' =>
        match s[6] {
          case 'G' =>
            assert s == "voiceFGDOS";
          case 'M' =>
            assert s == "voiceEMFGD";
          case 'n' =>
            assert s == "voiceEncap";
          case _ =>
            assert false;
        }
      case 'p' =>
        match s[7] {
          case 'd' =>
            assert s == "ipOverCdlc";
          case 'l' =>
            assert s == "ipOverClaw";
          case 'n' =>
            assert s == "mplsTunnel";
          case _ =>
            assert false;
        }
      case 'r' =>
        match s[0] {
          case 'a' =>
            assert s == "arcnetPlus";
          case 'f' =>
            assert s == "frameRelay";
          case 't' =>
            assert s == "transpHdlc";
          case _ =>
            assert false;
        }
      case 's' =>
        assert s == "ss7SigLink";
      case 't' =>
        match s[3] {
          case 'L' =>
            assert s == "atmLogical";
          case 'V' =>
            assert s == "atmVirtual";
          case _ =>
            assert false;
        }
      case 'v' =>
        assert s == "dvbRcsTdma";
      case _ =>
        assert false;
    }
  }

  lemma ToFromStringLength11(s: string)
    requires |s| == 11 && LookupLength11(s) != Unknown
    ensures ToString(LookupLength11(s)) == s
  {
    match s[7] {
      case '1' =>
        assert s == "regular1822";
      case '2' =>
        assert s == "iso88022llc";
      case '5' =>
        assert s == "iso88025Dtr";
      case '6' =>
        assert s == "iso88026Man";
      case 'I' =>
        assert s == "primaryISDN";
      case 'e' =>
        match s[0] {
          case 'f' =>
            assert s == "fastEtherFX";
          case 'v' =>
            assert s == "voiceOverIp";
          case _ =>
            assert false;
        }
      case 'n' =>
        match s[0] {
          case 'a' =>
            assert s == "atmVciEndPt";
          case 'f' =>
            assert s == "frDlciEndPt";
          case _ =>
            assert false;
        }
      case 'p' =>
        assert s == "propBWAp2Mp";
      case 't' =>
        assert s == "propVirtual";
      case _ =>
        assert false;
    }
  }

  lemma ToFromStringLength12(s: string)
    requires |s| == 12 && LookupLength12(s) != Unknown
    ensures ToString(LookupLength12(s)) == s
  {
    match s[0] {
      case 'a' =>
        assert s == "a12MppSwitch";
      case 'c' =>
        match s[1] {
          case 'b' =>
            assert s == "cblVectaStar";
          case 'i' =>
            assert s == "ciscoISLvlan";
          case _ =>
            assert false;
        }
      case 'd' =>
        match s[11] {
          case 'f' =>
            assert s == "docsCableNdf";
          case 'r' =>
            assert s == "docsCableNdr";
          case _ =>
            assert false;
        }
      case 'f' =>
        assert s == "fibreChannel";
      case 'h' =>
        assert s == "hyperchannel";
      case 'm' =>
        assert s == "mocaVersion1";
      case 's' =>
        assert s == "stackToStack";
      case 'v' =>
        match s[5] {
          case 'F' =>
            assert s == "voiceFGDEANA";
          case 'O' =>
            assert s == "voiceOverAtm";
          case _ =>
            assert false;
        }
      case 'x' =>
        match s[1] {
          case '2' =>
            assert s == "x25huntGroup";
          case 'b' =>
            assert s == "xboxWireless";
          case _ =>
            assert false;
        }
      case _ =>
        assert false;
    }
  }

  lemma ToFromStringLength13(s: string)
    requires |s| == 13 && LookupLength13(s) != Unknown
    ensures ToString(LookupLength13(s)) == s
  {
    match s[7] {
      case '1' =>
        match s[0] {
          case 'i' =>
            assert s == "ieee80216WMAN";
          case 'p' =>
            assert s == "proteon10Mbit";
          case _ =>
            assert false;
        }
      case '3' =>
        assert s == "ieee8023adLag";
      case '5' =>
        assert s == "iso88025Fiber";
      case '8' =>
        assert s == "proteon80Mbit";
      case 'a' =>
        assert s == "ibm370parChan";
      case 'i' =>
        assert s == "vmwareNicTeam";
      case 'l' =>
        assert s == "frameRelayMPI";
      case 'n' =>
        assert s == "mpegTransport";
      case 'r' =>
        match s[12] {
          case '1' =>
            assert s == "pdnEtherLoop1";
          case '2' =>
            assert s == "pdnEtherLoop2";
          case _ =>
            assert false;
        }
      case 't' =>
        match s[0] {
          case 'c' =>
            assert s == "compositeLink";
          case 'e' =>
            assert s == "ethernet3Mbit";
          case _ =>
            assert false;
        }
      case _ =>
        assert false;
    }
  }

  lemma ToFromStringLength14(s: string)
    requires |s| == 14 && LookupLength14(s) != Unknown
    ensures ToString(LookupLength14(s)) == s
  {
    match s[5] {
      case '0' =>
        match s[1] {
          case 'e' =>
            assert s == "ieee8021axDrni";
          case 's' =>
            assert s == "iso88023Csmacd";
          case _ =>
            assert false;
        }
      case 'I' =>
        assert s == "hippiInterface";
      case 'M' =>
        assert s == "frf16MfrBundle";
      case 'O' =>
        assert s == "voiceOverCable";
      case 'a' =>
        match s[0] {
          case 'h' =>
            assert s == "h323Gatekeeper";
          case 'o' =>
            assert s == "opticalChannel";
          case _ =>
            assert false;
        }
      case 'c' =>
        match s[6] {
          case 'M' =>
            assert s == "dvbRccMacLayer";
          case 'U' =>
            assert s == "dvbRccUpstream";
          case _ =>
            assert false;
        }
      case 'n' =>
        assert s == "ethernetCsmacd";
      case 'p' =>
        assert s == "capwapDot11Bss";
      case 's' =>
        assert s == "dvbRcsMacLayer";
      case _ =>
        assert false;
    }
  }

  lemma ToFromStringLength15(s: string)
    requires |s| == 15 && LookupLength15(s) != Unknown
    ensures ToString(LookupLength15(s)) == s
  {
    match s[4] {
      case '8' =>
        assert s == "iso88025CRFPInt";
      case 'M' =>
        assert s == "propMultiplexor";
      case 'W' =>
        assert s == "propWirelessP2P";
      case 'a' =>
        assert s == "mediaMailOverIp";
      case 'b' =>
        assert s == "gigabitEthernet";
      case 'l' =>
        assert s == "actelisMetaLOOP";
      case 'u' =>
        assert s == "atmSubInterface";
      case _ =>
        assert false;
    }
  }

  lemma ToFromStringLength16(s: string)
    requires |s| == 16 && LookupLength16(s) != Unknown
    ensures ToString(LookupLength16(s)) == s
  {
    match s[2] {
      case 'b' =>
        assert s == "dvbRccDownstream";
      case 'e' =>
        assert s == "ieee19061nanocom";
      case 'f' =>
        assert s == "softwareLoopback";
      case 'g' =>
        assert s == "digitalPowerline";
      case 'o' =>
        assert s == "iso88024TokenBus";
      case 'r' =>
        assert s == "virtualIpAddress";
      case 't' =>
        assert s == "opticalTransport";
      case 'w' =>
        assert s == "vmwareVirtualNic";
      case _ =>
        assert false;
    }
  }

  lemma ToFromStringLength17(s: string)
    requires |s| == 17 && LookupLength17(s) != Unknown
    ensures ToString(LookupLength17(s)) == s
  {
    match s[4] {
      case '8' =>
        assert s == "iso88025TokenRing";
      case 'C' =>
        match s[9] {
          case 'M' =>
            assert s == "docsCableMaclayer";
          case 'U' =>
            assert s == "docsCableUpstream";
          case _ =>
            assert false;
        }
      case 'O' =>
        assert s == "docsOfdmaUpstream";
      case 'e' =>
        assert s == "frameRelayService";
      case 'i' =>
        assert s == "aviciOpticalEther";
      case _ =>
        assert false;
    }
  }

  lemma ToFromStringLength18(s: string)
    requires |s| == 18 && LookupLength18(s) != Unknown
    ensures ToString(LookupLength18(s)) == s
  {
    match s[3] {
      case 'E' =>
        match s[7] {
          case 'L' =>
            assert s == "aluEponLogicalLink";
          case 'P' =>
            assert s == "aluEponPhysicalUni";
          case _ =>
            assert false;
        }
      case 'G' =>
        assert s == "aluGponPhysicalUni";
      case 'M' =>
        assert s == "pppMultilinkBundle";
      case 'S' =>
        assert s == "macSecControlledIF";
      case 's' =>
        assert s == "docsOfdmDownstream";
      case 'w' =>
        assert s == "capwapDot11Profile";
      case _ =>
        assert false;
    }
  }

  lemma ToFromStringLength19(s: string)
    requires |s| == 19 && LookupLength19(s) != Unknown
    ensures ToString(LookupLength19(s)) == s
  {
    match s[0] {
      case 'b' =>
        assert s == "bgppolicyaccounting";
      case 'd' =>
        assert s == "docsCableDownstream";
      case 'o' =>
        assert s == "opticalChannelGroup";
      case 'v' =>
        assert s == "voiceOverFrameRelay";
      case _ =>
        assert false;
    }
  }

  lemma ToFromStringLength20(s: string)
    requires |s| == 20 && LookupLength20(s) != Unknown
    ensures ToString(LookupLength20(s)) == s
  {
    match s[0] {
      case 'm' =>
        assert s == "macSecUncontrolledIF";
      case 's' =>
        assert s == "sonetOverheadChannel";
      case _ =>
        assert false;
    }
  }

  lemma ToFromStringLength21(s: string)
    requires |s| == 21 && LookupLength21(s) != Unknown
    ensures ToString(LookupLength21(s)) == s
  {
    match s[2] {
      case 'b' =>
        assert s == "cableDownstreamRfPort";
      case 'p' =>
        assert s == "capwapWtpVirtualRadio";
      case _ =>
        assert false;
    }
  }

  lemma ToFromStringLength22(s: string)
    requires |s| == 22 && LookupLength22(s) != Unknown
    ensures ToString(LookupLength22(s)) == s
  {
    match s[17] {
      case 'D' =>
        assert s == "docsCableScte55d2DsOob";
      case 'U' =>
        assert s == "docsCableScte55d2UsOob";
      case 'e' =>
        assert s == "propPointToPointSerial";
      case 'n' =>
        assert s == "frameRelayInterconnect";
      case _ =>
        assert false;
    }
  }

  lemma ToFromStringLength23(s: string)
    requires |s| == 23 && LookupLength23(s) != Unknown
    ensures ToString(LookupLength23(s)) == s
  {
    match s[18] {
      case 'e' =>
        assert s == "docsCableScte55d1RetOob";
      case 'f' =>
        assert s == "docsCableUpstreamRfPort";
      case 'w' =>
        assert s == "docsCableScte55d1FwdOob";
      case _ =>
        assert false;
    }
  }

  lemma ToFromStringLength24(s: string)
    requires |s| == 24 && LookupLength24(s) != Unknown
    ensures ToString(LookupLength24(s)) == s
  {
    match s[16] {
      case 'M' =>
        assert s == "propDocsWirelessMaclayer";
      case 'U' =>
        assert s == "propDocsWirelessUpstream";
      case 'm' =>
        assert s == "docsCableUpstreamChannel";
      case 'w' =>
        assert s == "docsCableMCmtsDownstream";
      case _ =>
        assert false;
    }
  }

  lemma ToFromStringLength26(s: string)
    requires |s| == 26 && LookupLength26(s) != Unknown
    ensures ToString(LookupLength26(s)) == s
  {
    match s[0] {
      case 'm' =>
        assert s == "microwaveRadioLinkTerminal";
      case 'p' =>
        assert s == "propDocsWirelessDownstream";
      case _ =>
        assert false;
    }
  }

  lemma ToFromStringLength27(s: string)
    requires |s| == 27 && LookupLength27(s) != Unknown
    ensures ToString(LookupLength27(s)) == s
  {
    assert s == "microwaveCarrierTermination";
  }

  lemma ToFromStringLength29(s: string)
    requires |s| == 29 && LookupLength29(s) != Unknown
    ensures ToString(LookupLength29(s)) == s
  {
    assert s == "digitalWrapperOverheadChannel";
  }


  /** toString is injective: distinct enumerators have distinct names. */
  lemma ToStringInjective(a: IanaIfType, b: IanaIfType)
    requires ToString(a) == ToString(b)
    ensures a == b
  {
    FromToString(a);
    FromToString(b);
  }

  /** fromString is exactly the inverse table of toString: it finds `t` when
      `s` is the name of the enumerator `t` other than `Unknown`, and gives
      `Unknown` when no such enumerator is named `s`. */
  lemma FromStringInverse(s: string, t: IanaIfType)
    requires t != Unknown
    ensures FromString(s) == t <==> ToString(t) == s
  {
    if FromString(s) == t {
      ToFromString(s);
    }
    if ToString(t) == s {
      FromToString(t);
    }
  }

  /** A string that names no enumerator other than `Unknown` is not a key. */
  lemma FromStringNotAKey(s: string)
    requires forall t: IanaIfType :: t != Unknown ==> ToString(t) != s
    ensures FromString(s) == Unknown
  {
    if FromString(s) != Unknown {
      ToFromString(s);
    }
  }

  /** The lookup is exact and case-sensitive: a key with one letter in a
      different case is not found. */
  lemma FromStringCaseSensitive()
    ensures FromString("ethernetCsmacd") == ethernetCsmacd
    ensures FromString("EthernetCsmacd") == Unknown
    ensures FromString("unknown") == Unknown
  {
    FromToString(ethernetCsmacd);
  }

  /** The one enumerator whose name differs from its identity: `if_gsn`
      is "if-gsn" both ways. */
  lemma IfGsnName()
    ensures ToString(if_gsn) == "if-gsn"
    ensures FromString("if-gsn") == if_gsn
  {
    FromToString(if_gsn);
  }

}
