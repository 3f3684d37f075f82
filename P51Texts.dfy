/**
 * The fixed texts of the P-51 Mustang script: what each record embeds, and the page the main
 * block cleans and parses.
 */
module P51Texts {
  /** The general-information text (process_p51_data.py:171-175). */
  const GeneralInfoText: string :=
    "The North American P-51 Mustang (referred to "
    + "as simply the 'P-51 Mustang' in War Tycoon) is "
    + "a WW2-era fighter. It is unlocked after purchasing "
    + "it for $700,000 in the Plane Hangar at Rebirth "
    + "7. It has a seating capacity of 1, 1 hull, 1 "
    + "weapon, 1 engine, and the utility 'Zoom In'."

  /** The full overview text (process_p51_data.py:197-234). */
  const FullOverviewText: string :=
    "The P-51 Mustang is regarded as one of the weakest "
    + "and most vulnerable vehicles in the entire game "
    + "due to having no flares. Since it's a plane, "
    + "it does not have the luxury of having the maneuverability "
    + "of helicopters to linger in their flares, avoid "
    + "lock-on missiles, and counter anti-air vehicles "
    + "such as the Pantsir S1 and Patriot AA, which "
    + "are extremely effective against the P-51 and "
    + "other planes. The P-51 Mustang is equipped with "
    + "four 20mm cannons mounted to its wings, which "
    + "function similarly to a machine gun due to their "
    + "lower individual fire rate when compared to the "
    + "rotary cannons mounted to other planes such as "
    + "the F-4 Phantom, F-14 Tomcat, and F-16 Falcon "
    + "to name a few. The P-51's 20mm cannons combined, "
    + "however, deal significant damage-per-shot and "
    + "are able to fire over a larger area with each "
    + "cannon shooting in an alternating pattern to "
    + "maximise fire rate and coverage. The P-51 Mustang "
    + "also comes with a single .50 caliber machine "
    + "gun mounted underneath the nose, which, although "
    + "by itself has a limited effectiveness, when combined "
    + "with the more powerful 20mm cannons, the .50 "
    + "caliber provides extra attrition damage against "
    + "enemy vehicles and exposed infantry. Much like "
    + "its real-life counterpart, the P-51 Mustang serves "
    + "as an effective plane for Close Air Support (CAS) "
    + "roles. Its powerful Area of Effect (AoE) damage "
    + "makes the platform well suited for engaging lightly "
    + "armored vehicles and exposed infantry whilst "
    + "also being able to finish off severely damaged "
    + "tanks in specific circumstances.\n"
    + "Evaluating this plane, if used correctly, the "
    + "P-51 Mustang is a cheap, effective CAS aircraft "
    + "but falters in other roles due to the divide "
    + "between its skill requirements and effectiveness "
    + "against other, more advanced planes.\n"
    + "Stats\n"
    + "Firepower\n"
    + "Armament\n"
    + "Damage Per Shot (Non-Upgraded)\n"
    + "Damage Per Shot (Tier 1)\n"
    + "Damage Per Shot (Tier 2)\n"
    + "Damage Per Shot (Tier 3)\n"
    + "20mm Cannons\n"
    + "[TBA]\n"
    + "[TBA]\n"
    + "[TBA]\n"
    + "[TBA]\n"
    + ".50 Caliber Machine Gun\n"
    + "[TBA]\n"
    + "[TBA]\n"
    + "[TBA]\n"
    + "[TBA]\n"
    + "Speed\n"
    + "Speed (Non-Upgraded)\n"
    + "Speed (Tier 1)\n"
    + "Speed (Tier 2)\n"
    + "Speed (Tier 3)\n"
    + "205 MPH\n"
    + "[TBA] MPH\n"
    + "[TBA] MPH\n"
    + "266 MPH\n"
    + "Health\n"
    + "Health (Non-Upgraded)\n"
    + "Health (Tier 1)\n"
    + "Health (Tier 2)\n"
    + "Health (Tier 3)\n"
    + "650 HP\n"
    + "715 HP\n"
    + "780 HP\n"
    + "845 HP\n"

  /** The concise overview (process_p51_data.py:249-255). */
  const ConciseOverviewText: string :=
    "The P-51 Mustang is considered one of the weakest "
    + "vehicles due to no flares, vulnerable to lock-on "
    + "missiles and anti-air. However, it excels in "
    + "Close Air Support (CAS) roles with powerful AoE "
    + "damage against lightly armored vehicles and infantry. "
    + "It's a cheap, effective CAS aircraft but struggles "
    + "in other roles."

  /** The 20mm cannon text (process_p51_data.py:271). */
  const CannonsArmamentText: string :=
    "Equipped with four 20mm cannons mounted to its "
    + "wings, which function similarly to a machine "
    + "gun due to their lower individual fire rate compared "
    + "to rotary cannons. Combined, they deal significant "
    + "damage-per-shot and fire over a larger area with "
    + "alternating patterns."

  /** The machine gun text (process_p51_data.py:289). */
  const MachineGunArmamentText: string :=
    "Comes with a single .50 caliber machine gun mounted "
    + "underneath the nose. Limited effectiveness by "
    + "itself, but provides extra attrition damage when "
    + "combined with 20mm cannons."

  /** The speed statistics text (process_p51_data.py:307). */
  const SpeedText: string :=
    "Speed (Minimum): 205 MPH, Speed (Maximum): 266 "
    + "MPH. Tier 1 and Tier 2 speeds are [TBA]."

  /** The health statistics text (process_p51_data.py:328). */
  const HealthText: string :=
    "Health (Minimum): 650 HP, Health (Maximum): 845 "
    + "HP. Tier 1: 715 HP, Tier 2: 780 HP."

  /** The category text (process_p51_data.py:349). */
  const CategoryText: string :=
    "The P-51 Mustang is classified under the 'Fighters' "
    + "category of planes."

  /** The page text the main block processes (process_p51_data.py:376-414). */
  const PageContent: string :=
    "The North American P-51 Mustang (referred to "
    + "as simply the 'P-51 Mustang' in War Tycoon) is "
    + "a WW2-era fighter. It is unlocked after purchasing "
    + "it for $700,000 in the Plane Hangar at Rebirth "
    + "7. It has a seating capacity of 1, 1 hull, 1 "
    + "weapon, 1 engine, and the utility 'Zoom In'.\n"
    + "The P-51 Mustang is regarded as one of the weakest "
    + "and most vulnerable vehicles in the entire game "
    + "due to having no flares. Since it's a plane, "
    + "it does not have the luxury of having the maneuverability "
    + "of helicopters to linger in their flares, avoid "
    + "lock-on missiles, and counter anti-air vehicles "
    + "such as the Pantsir S1 and Patriot AA, which "
    + "are extremely effective against the P-51 and "
    + "other planes. The P-51 Mustang is equipped with "
    + "four 20mm cannons mounted to its wings, which "
    + "function similarly to a machine gun due to their "
    + "lower individual fire rate when compared to the "
    + "rotary cannons mounted to other planes such as "
    + "the F-4 Phantom, F-14 Tomcat, and F-16 Falcon "
    + "to name a few. The P-51's 20mm cannons combined, "
    + "however, deal significant damage-per-shot and "
    + "are able to fire over a larger area with each "
    + "cannon shooting in an alternating pattern to "
    + "maximise fire rate and coverage. The P-51 Mustang "
    + "also comes with a single .50 caliber machine "
    + "gun mounted underneath the nose, which, although "
    + "by itself has a limited effectiveness, when combined "
    + "with the more powerful 20mm cannons, the .50 "
    + "caliber provides extra attrition damage against "
    + "enemy vehicles and exposed infantry. Much like "
    + "its real-life counterpart, the P-51 Mustang serves "
    + "as an effective plane for Close Air Support (CAS) "
    + "roles. Its powerful Area of Effect (AoE) damage "
    + "makes the platform well suited for engaging lightly "
    + "armored vehicles and exposed infantry whilst "
    + "also being able to finish off severely damaged "
    + "tanks in specific circumstances.\n"
    + "Evaluating this plane, if used correctly, the "
    + "P-51 Mustang is a cheap, effective CAS aircraft "
    + "but falters in other roles due to the divide "
    + "between its skill requirements and effectiveness "
    + "against other, more advanced planes.\n"
    + "Stats\n"
    + "Firepower\n"
    + "Armament\n"
    + "Damage Per Shot (Non-Upgraded)\n"
    + "Damage Per Shot (Tier 1)\n"
    + "Damage Per Shot (Tier 2)\n"
    + "Damage Per Shot (Tier 3)\n"
    + "20mm Cannons\n"
    + "[TBA]\n"
    + "[TBA]\n"
    + "[TBA]\n"
    + "[TBA]\n"
    + ".50 Caliber Machine Gun\n"
    + "[TBA]\n"
    + "[TBA]\n"
    + "[TBA]\n"
    + "[TBA]\n"
    + "Speed\n"
    + "Speed (Non-Upgraded)\n"
    + "Speed (Tier 1)\n"
    + "Speed (Tier 2)\n"
    + "Speed (Tier 3)\n"
    + "205 MPH\n"
    + "[TBA] MPH\n"
    + "[TBA] MPH\n"
    + "266 MPH\n"
    + "Health\n"
    + "Health (Non-Upgraded)\n"
    + "Health (Tier 1)\n"
    + "Health (Tier 2)\n"
    + "Health (Tier 3)\n"
    + "650 HP\n"
    + "715 HP\n"
    + "780 HP\n"
    + "845 HP\n"
}
