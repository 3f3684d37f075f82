/**
 * The fixed texts of the MiG-29 Fulcrum script: what the records with fixed text embed, and
 * the page the main block cleans and parses.
 */
module Mig29Texts {
  import opened Cleaning

  /** The general-information text (rocess_mig29_data.py:191-197). */
  const GeneralInfoText: string :=
    "The Mikoyan-Gurevich MiG-29 Fulcrum is a Soviet-Era "
    + "multi-role fighter jet used primarily by the "
    + "Russian Air Force. It is unlocked after completing "
    + "Operation Aerial Ace and can be found in the "
    + "Plane Hangar after reaching Rebirth 7. It has "
    + "a price of $850,000, seating capacity of 2, 1 "
    + "hull, 2 weapons, 1 engine. Its armament includes "
    + "1x 30mm Autocannon and 6x Air-to-Air Missiles. "
    + "Utilities include Flares, 2x Ejection Seats, "
    + "and Zoom In."

  /** The concise overview (rocess_mig29_data.py:260-268). */
  const ConciseOverviewText: string :=
    "The MiG-29 Fulcrum is an early-game multi-role "
    + "fighter jet known for its relatively simple unlock "
    + "requirements (Operation Aerial Ace) and strong "
    + "combat capabilities despite being an early-game "
    + "option. It features a potent 30mm autocannon "
    + "effective for base shield destruction and air-to-ground "
    + "engagements, and 6 air-to-air missiles which "
    + "can be used to bait enemy flares. Unlike the "
    + "P-51, it has flares, making it less vulnerable "
    + "to lock-on missiles. While not as agile as some "
    + "modern jets at higher speeds, it excels in close-range "
    + "dogfights at slower speeds. It's a significant "
    + "upgrade from the P-51 Mustang."

  /** The 30mm autocannon text (rocess_mig29_data.py:297). */
  const AutocannonText: string :=
    "The MiG-29 possesses a potent 30mm rotary cannon "
    + "mounted to the right of the cockpit's underside "
    + "near the nose. This rotary cannon has a notably "
    + "lower DPS (Damage Per Second) when compared to "
    + "the likes of the 20mm rotary cannons mounted "
    + "on the F-4 Phantom, F-14 Tomcat, and F-16 Falcon. "
    + "As a direct trade-off to this lowered fire rate, "
    + "the MiG-29's 30mm rotary cannon has a higher "
    + "damage-per-shot, allowing it to fulfill roles "
    + "in base shield destruction and air-to-ground "
    + "engagements."

  /** The air-to-air missile text (rocess_mig29_data.py:316). */
  const MissilesText: string :=
    "The MiG-29 also possesses a compliment of 6 air-to-air "
    + "missiles for use against enemy aerial targets, "
    + "however, the trade-off to the fighter's increased "
    + "munitions payload is the smaller damage-per-hit "
    + "of each missile. This means that the pilot of "
    + "the MiG-29 needs to fire more missiles against "
    + "an enemy target to severely cripple or destroy "
    + "it, however, having access to so many missiles "
    + "allows pilots to \"bait\" enemy aircraft into "
    + "dispensing their flares prematurely, allowing "
    + "MiG-29 pilots to swiftly launch the remainder "
    + "of their payload and deal significant damage."

  /** The speed statistics text (rocess_mig29_data.py:333). */
  const SpeedText: string :=
    "Speed (Non-Upgraded): 275 MPH, Speed (Tier 1): "
    + "[TBA] MPH, Speed (Tier 2): [TBA] MPH, Speed (Tier "
    + "3): [TBA] MPH."

  /** The health statistics text (rocess_mig29_data.py:354). */
  const HealthText: string :=
    "Health (Non-Upgraded): 680 HP, Health (Tier 1): "
    + "748 HP, Health (Tier 2): 816 HP, Health (Tier "
    + "3): 884 HP."

  /** The category text (rocess_mig29_data.py:403). */
  const CategoryText: string :=
    "The MiG-29 Fulcrum is classified under the 'Fighter "
    + "Jets' category of planes."

  /** The page text the main block processes (rocess_mig29_data.py:429-484). */
  const PageContent: string := Mig29PageOpening + PageRest

  /** Everything after the opening lines of the page text. */
  const PageRest: string :=
    "\n"
    + "\n"
    + "The Mikoyan-Gurevich MiG-29 Fulcrum is a Soviet-Era "
    + "multi-role fighter jet used primarily by the "
    + "Russian Air Force.\n"
    + "It is unlocked after completing Operation Aerial "
    + "Ace and can be found in the Plane Hangar after "
    + "reaching Rebirth 7.\n"
    + "\n"
    + "Contents\n"
    + "\n"
    + "1Overview\n"
    + "2History\n"
    + "3Stats\n"
    + "3.1Firepower\n"
    + "3.2Speed\n"
    + "3.3Health\n"
    + "Overview\n"
    + "MiG-29 Fulcrum\n"
    + "\n"
    + "The in-game render for the MiG-29 Fulcrum.\n"
    + "General Information\n"
    + "Price\n"
    + "$850,000\n"
    + "(Requires Operation Aerial Ace to be completed.)\n"
    + "Speed (Minimum)Speed (Maximum)275 MPH[TBA] MPH\n"
    + "Health (Minimum)Health (Maximum)680 HP884 HP\n"
    + "Armament\n"
    + "- 1x 30mm Autocannon;\n"
    + "- 6x Air-to-Air Missiles.\n"
    + "Utility\n"
    + "- Flares;\n"
    + "- 2x Ejection Seats;\n"
    + "- Zoom In\n"
    + "Seating Capacity\n"
    + "2\n"
    + "Vehicle Parts Cost\n"
    + "HullsWeaponsEngines121\n"
    + "\n"
    + "The Mikoyan-Gurevich MiG-29 Fulcrum is known "
    + "for its role as an early-game fighter jet within "
    + "War Tycoon. Known for its easy Operation, the "
    + "requirements to unlock the MiG-29 are relatively "
    + "simple, requiring the player to kill 30 enemy "
    + "players with any plane.\n"
    + "The MiG-29 possesses a potent 30mm rotary cannon "
    + "mounted to the right of the cockpit's underside "
    + "near the nose. This rotary cannon has a notably "
    + "lower DPS (Damage Per Second) when compared to "
    + "the likes of the 20mm rotary cannons mounted "
    + "on the F-4 Phantom, F-14 Tomcat, and F-16 Falcon. "
    + "As a direct trade-off to this lowered fire rate, "
    + "the MiG-29's 30mm rotary cannon has a higher "
    + "damage-per-shot, allowing it to fulfill roles "
    + "in base shield destruction and air-to-ground "
    + "engagements.\n"
    + "The MiG-29 also possesses a compliment of 6 air-to-air "
    + "missiles for use against enemy aerial targets, "
    + "however, the trade-off to the fighter's increased "
    + "munitions payload is the smaller damage-per-hit "
    + "of each missile. This means that the pilot of "
    + "the MiG-29 needs to fire more missiles against "
    + "an enemy target to severely cripple or destroy "
    + "it, however, having access to so many missiles "
    + "allows pilots to \"bait\" enemy aircraft into "
    + "dispensing their flares prematurely, allowing "
    + "MiG-29 pilots to swiftly launch the remainder "
    + "of their payload and deal significant damage.\n"
    + "Unlike the P-51 Mustang, the MiG-29 has flares, "
    + "rendering the P-51 Mustang outclassed compared "
    + "to this jet. However, jets do not have the luxury "
    + "of staying in their flares like Helicopters, "
    + "which makes them more vulnerable to lock-on missiles "
    + "originating from Stingers, the Pantsir S1, and "
    + "helicopters. The MiG-29 is not as easy to handle "
    + "compared to the F-14 Tomcat and has a larger "
    + "turn radius when compared to its contemporaries "
    + "at higher speed, however, the MiG-29 possesses "
    + "a smaller turn radius when traveling at a slower "
    + "speed, allowing it to combat enemy air targets "
    + "in close range.\n"
    + "In conclusion, the MiG-29 Fulcrum serves as a "
    + "significant upgrade compared to the P-51 Mustang, "
    + "serving as a good early-game fighter jet. When "
    + "compared to other, more modern planes, the MiG-29 "
    + "may falter.\n"
    + "History\n"
    + "During the Vietnam war, it was clear to the USAF "
    + "that low altitude supersonic fighter bombers, "
    + "like the F-105 Thunderchief and F-104 Starfighter, "
    + "were extremely vulnerable to the older Soviet "
    + "models, such as the MiG-17's and more advanced "
    + "ones such as the MiG-21 were far more more maneuverable. "
    + "To help regain air superiority over Vietnam, "
    + "the U.S. employed the F-4 Phantom, while the "
    + "USSR used the MiG-23 in response. In the late "
    + "1960s the USAF started the \"F-X\" program to "
    + "build a fighter that would have total air superiority, "
    + "the following aircraft would become the McDonnell "
    + "Douglas F-15 Eagle soon after being ordered for "
    + "production in 1969. During one of the most tense "
    + "moments of the Cold War, the USSR needed a response "
    + "or else they would lag behind the United States "
    + "in technological developments, hence the development "
    + "of an air superiority fighter was necessary. "
    + "In the same year the Soviet General Staff would "
    + "issue the requirement for a Perspektivnyy Frontovoy "
    + "Istrebitel (PFI \"Advanced Frontline Fighter\"). "
    + "The list of demands were ambitious, calling for "
    + "long range, be able to land almost anywhere such "
    + "as austere runways, exceptional maneuverability, "
    + "Mach 2+ speed, and the ability to carry almost "
    + "everything.\n"
    + "By 1971, a different type of fighter was needed "
    + "for the Soviet Union. The PFI program was slightly "
    + "changed with the Perspektivnyy Lyogkiy Frontovoy "
    + "Istrebitel (LPFI, or \"Advanced Lightweight Tactical "
    + "Fighter\") program. The Soviets planned to have "
    + "a fleet of 33% PFI planes and 66% LPFI planes. "
    + "This decision aligned closely with the USAF's "
    + "decision of the Lightweight Fighter program. "
    + "The role of designing a PFI fighter went to Sukhoi, "
    + "resulting in the well known Su-27 \"Flanker\", "
    + "while the LPFI was assigned to Mikoyan. Production "
    + "of the MiG-29 would start in 1974, taking its "
    + "maiden flight on 6 October 1977. The MiG-29 would "
    + "soon replace the older MiG-23 throughout the "
    + "1980s alongside the Su-27.\n"
    + "The aircraft would be given the NATO Reporting "
    + "name \"Fulcrum-A\". Soon the aircraft would be "
    + "widely exported to many of the Warsaw pact countries "
    + "in downgraded versions. Today while not as impressive "
    + "as other fighters the Fulcrum does its job extremely "
    + "well with many countries still operating today "
    + "including former Warsaw pact members and Russia.\n"
    + "Stats\n"
    + "Firepower\n"
    + "Armament Stats CollapseArmamentDamage Per Shot "
    + "(Non-Upgraded)Damage Per Shot (Tier 1)Damage "
    + "Per Shot (Tier 2)Damage Per Shot (Tier 3)30mm "
    + "Autocannon[TBA][TBA][TBA][TBA]Air-to-Air Missiles[TBA][TBA]["
    + "TBA][TBA]\n"
    + "Speed\n"
    + "Speed Stats CollapseSpeed (Non-Upgraded)Speed "
    + "(Tier 1)Speed (Tier 2)Speed (Tier 3)275 MPH[TBA] "
    + "MPH[TBA] MPH[TBA] MPH\n"
    + "Health\n"
    + "Health Stats CollapseHealth (Non-Upgraded)Health "
    + "(Tier 1)Health (Tier 2)Health (Tier 3)680 HP748 "
    + "HP816 HP884 HP\n"

  /** The MiG-29 main block's cleaning chain turns its hard-coded page into the empty text. */
  lemma HardCodedPageCleansToEmpty()
    ensures CleanMig29Page(PageContent) == ""
  {
    Mig29PageCleansToEmpty(PageRest);
  }
}
